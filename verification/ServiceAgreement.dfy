/** Over every lawful run the checkpoint agrees with the store on all live leases. */
module ServiceAgreement {
  import opened Basics
  import opened Jobs
  import opened BrokerState
  import opened BrokerOps
  import opened BrokerInvariants
  import opened BrokerSteps
  import opened BrokerActs
  import opened BrokerOutcomes
  import opened BrokerRuns
  import opened Checkpoint
  import opened Service
  import opened ServiceNames

  // ---------------------------------------------------------------------
  // One call, seen by one task
  // ---------------------------------------------------------------------

  lemma UntouchedAgrees(b: Board, n: Board, file: seq<Entry>, other: seq<Entry>, project: Id, task: Id)
    requires Agrees(b, file, project, task) && Find(other, task) == Find(file, task)
    requires var key := Key(project, task);
             (key in n.jobs <==> key in b.jobs) && (key in b.jobs ==> n.jobs[key].lease == b.jobs[key].lease && n.jobs[key].status == b.jobs[key].status)
    ensures Agrees(n, other, project, task)
  {
    hide Key;
  }

  lemma UnleasedAgrees(b: Board, n: Board, file: seq<Entry>, project: Id, task: Id, now: int)
    requires Agrees(b, file, project, task) && JobStep(b, n, Key(project, task), false, now) && LeaseAt(n, Key(project, task)).None?
    ensures Agrees(n, file, project, task)
  {
    hide Key;
  }

  /** Only tasks have jobs, so nothing else has a checkpoint entry. */
  lemma OthersHaveNoEntry(names: Naming, b: Board, file: seq<Entry>, task: Id)
    requires BoardOK(b) && BoardNamed(names, b) && Agrees(b, file, names.project, task) && task !in names.tasks
    ensures Find(file, task).None?
  {
    var key := Key(names.project, task);
    if key in b.jobs {
      KeyIsInjective(names.project, task, b.jobs[key].id);
    }
    hide Key;
  }

  lemma {:induction false} SettledItemsAgree(names: Naming, b: Board, file: seq<Entry>, items: seq<Id>, task: Id)
    requires BoardOK(b) && BoardNamed(names, b) && ItemsFinished(names, b, items) && Agrees(b, file, names.project, task)
    ensures Agrees(b, RecordAllSettled(file, items), names.project, task)
  {
    hide Key, RecordSettled, Agrees, IsFinished;
    if items != [] {
      var before, item := items[..|items| - 1], items[|items| - 1];
      SettledItemsAgree(names, b, file, before, task);
      var recorded := RecordAllSettled(file, before);
      if item != task {
        SettlingOthersKeepsEntry(recorded, task, item, None);
        UntouchedAgrees(b, b, recorded, RecordSettled(recorded, item, None), names.project, task);
      } else if item in names.tasks {
        FinishedAgrees(b, RecordSettled(recorded, item, None), names.project, task);
      } else {
        OthersHaveNoEntry(names, b, recorded, task);
        NothingToSettle(recorded, task);
      }
    }
  }

  lemma {:induction false} ExpiredSessionsAgree(names: Naming, s: State, file: seq<Entry>, leases: seq<Id>, task: Id)
    requires BoardOK(s.board) && Named(names, s) && Agrees(s.board, file, names.project, task)
    ensures Agrees(s.board, RecordExpired(file, s.registry, leases), names.project, task)
  {
    hide Key, RecordAllSettled, Agrees, WorkNamed, BoardNamed, TalksNamed, ItemsFinished;
    if leases != [] {
      var before := leases[..|leases| - 1];
      ExpiredSessionsAgree(names, s, file, before, task);
      NoItems(names, s.board);
      SettledItemsAgree(names, s.board, RecordExpired(file, s.registry, before), SettledBy(s.registry, leases[|leases| - 1]), task);
    }
  }

  lemma DeliverAgrees(names: Naming, s: State, file: seq<Entry>, op: Op, now: int, task: Id)
    requires Inv(s) && Named(names, s) && op.DoDeliver? && task != [] && Agrees(s.board, file, names.project, task)
    ensures var e := Deliver(s, op.agent, op.scope, op.lease, op.env, now);
            Agrees(e.state.board, Recorded(file, op, e), names.project, task)
  {
    hide Inv, Key, PollRefused, Advanced, RecordInFlight, BoardNamed, TalksNamed, SessionsNamed, IsUsable, DecodeLease, JobStep, Winds;
    var e := Deliver(s, op.agent, op.scope, op.lease, op.env, now);
    if op.env.id in s.work.byId && IsBusy(s.work.byId[op.env.id].status) && !PollRefused(s, op.agent, op.scope, op.lease) {
      var env := s.work.byId[op.env.id].env;
      var n := Advanced(s, op.env.id, MessageStatus.Delivered, None, now).state;
      AdvancedIsTidy(names, s, op.env.id, MessageStatus.Delivered, None, now);
      AdvancedKeeps(s, op.env.id, MessageStatus.Delivered, None, now);
      WindsProceeds(s, n, Key(names.project, task), now);
      DeliveredJobAgrees(names, s, n, file, env, now, task);
      OnlyTasksMoveTheBoard(s, op.env.id, MessageStatus.Delivered, None, now);
    }
    NothingToRecord(file);
  }

  lemma OnlyTasksMoveTheBoard(s: State, id: Id, status: MessageStatus, talk: Option<ConversationStatus>, now: int)
    requires id in s.work.byId
    ensures var p := Advanced(s, id, status, talk, now);
            var env := s.work.byId[id].env;
            p.failed || env.task == [] || !env.kind.TaskMessage? ==> p.state.board == s.board
  {
    hide UpsertTask, UpsertFails, Touch;
  }

  lemma NothingToRecord(file: seq<Entry>)
    ensures forall task :: RecordInFlight(file, task, None) == file
    ensures DecodeLease(None) == None
  {
  }

  /** The board after a delivery agrees with the checkpoint that got the granted lease, if there is one. */
  lemma DeliveredJobAgrees(names: Naming, s: State, n: State, file: seq<Entry>, env: Envelope, now: int, task: Id)
    requires Inv(s) && Inv(n) && Named(names, n) && env.project == names.project && task != []
    requires Agrees(s.board, file, names.project, task) && JobStep(s.board, n.board, Key(names.project, task), false, now)
    requires forall k :: k in n.board.jobs && k != Key(names.project, env.task) ==> k in s.board.jobs && n.board.jobs[k] == s.board.jobs[k]
    ensures var key := Key(names.project, env.task);
            Agrees(n.board, RecordInFlight(file, env.task, DecodeLease(LeaseAt(n.board, key))), names.project, task)
  {
    hide Inv, RecordInFlight, WorkNamed, TalksNamed, SessionsNamed, DecodeLease, Key, BoardOK;
    var key := Key(names.project, env.task);
    NothingToRecord(file);
    if task == env.task {
      if LeaseAt(n.board, key).Some? {
        RecordingAgrees(s.board, n.board, file, names.project, task, now, false);
      } else {
        UnleasedAgrees(s.board, n.board, file, names.project, task, now);
      }
    } else {
      DifferentKeys(names.project, task, env.task);
      RecordingOthersKeepsEntry(file, task, env.task, DecodeLease(LeaseAt(n.board, key)));
      UntouchedAgrees(s.board, n.board, file, RecordInFlight(file, env.task, DecodeLease(LeaseAt(n.board, key))), names.project, task);
    }
  }

  lemma DifferentKeys(project: Id, a: Id, b: Id)
    requires a != b
    ensures Key(project, a) != Key(project, b)
  {
    if Key(project, a) == Key(project, b) {
      KeyIsInjective(project, a, b);
    }
  }

  /** A heartbeat records the renewed lease of the job its task id names. */
  lemma HeartbeatAgrees(names: Naming, s: State, file: seq<Entry>, op: Op, now: int, task: Id)
    requires Inv(s) && Named(names, s) && Lawful(names, s, op) && op.DoHeartbeatJob?
    requires task != [] && Agrees(s.board, file, names.project, task)
    ensures var e := HeartbeatJob(s, op.task, op.holder, op.epoch, op.scope, op.heartbeatMs, now);
            Agrees(e.state.board, Recorded(file, op, e), names.project, task)
  {
    hide Inv, Key, RecordInFlight, Named, IsUsable, StoreLease, FindJob, Renew, JobStep, Agrees, BoardOK;
    FoundJobIsStored(s.board, op.task, op.scope);
    JobsAreShaped(s);
    var found := FindJob(s.board, op.task, op.scope);
    if found.Some? && s.board.jobs[found.value].lease.Some? && Matches(s.board.jobs[found.value].lease.value, op.holder, op.epoch) {
      var job := s.board.jobs[found.value];
      var renewed := Renew(job.lease.value, op.heartbeatMs, now);
      LeaseCallsAreNamed(names, s, op, now);
      RenewKeepsHolder(job.lease.value, op.heartbeatMs, now);
      StoreLeaseKeeps(s, found.value, job.status, renewed);
      HeartbeatJobKeeps(s, op.task, op.holder, op.epoch, op.scope, op.heartbeatMs, now, Key(names.project, task));
      StoredLeaseAgrees(names, s, StoreLease(s, found.value, job.status, renewed), file, op.task, renewed, now, false, task);
    }
  }

  /** A reclaim records the lease it leaves on the job, new or still active. */
  lemma ReclaimAgrees(names: Naming, s: State, file: seq<Entry>, op: Op, now: int, task: Id)
    requires Inv(s) && Named(names, s) && Lawful(names, s, op) && op.DoReclaimJob?
    requires task != [] && Agrees(s.board, file, names.project, task)
    ensures var e := ReclaimJob(s, op.task, op.holder, op.scope, now);
            Agrees(e.state.board, Recorded(file, op, e), names.project, task)
  {
    hide Inv, Key, RecordInFlight, Named, IsUsable, StoreLease, FindJob, Reclaim, JobStep, Agrees, BoardOK;
    FoundJobIsStored(s.board, op.task, op.scope);
    JobsAreShaped(s);
    var key := Key(names.project, task);
    var found := FindJob(s.board, op.task, op.scope);
    if found.Some? && s.board.jobs[found.value].lease.Some? {
      var lease := s.board.jobs[found.value].lease.value;
      if IsActive(lease, now) {
        JobStepReflexive(s.board, key, now);
        StoredLeaseAgrees(names, s, s, file, op.task, lease, now, false, task);
      } else {
        var next := Reclaim(lease, op.holder, now);
        LeaseCallsAreNamed(names, s, op, now);
        ReclaimRaisesEpoch(lease, op.holder, now);
        StoreLeaseKeeps(s, found.value, JobStatus.Running, next);
        ReclaimJobKeeps(s, op.task, op.holder, op.scope, now, key);
        StoredLeaseAgrees(names, s, StoreLease(s, found.value, JobStatus.Running, next), file, op.task, next, now,
                          Reclaims(s, op, now, key), task);
      }
    }
  }

  lemma JobStepReflexive(b: Board, key: Id, now: int)
    requires forall k :: k in b.jobs ==> JobShape(b.jobs[k])
    ensures JobStep(b, b, key, false, now)
  {
  }

  lemma StoredLeaseAgrees(names: Naming, s: State, n: State, file: seq<Entry>, named: Id, lease: Lease, now: int, reclaimed: bool, task: Id)
    requires task != [] && Agrees(s.board, file, names.project, task) && Named(names, n)
    requires var key := Key(names.project, named);
             && LeaseAt(n.board, key) == Some(lease)
             && (forall k :: k in n.board.jobs <==> k in s.board.jobs)
             && (forall k :: k in s.board.jobs && k != key ==> n.board.jobs[k] == s.board.jobs[k])
    requires task == named ==> JobStep(s.board, n.board, Key(names.project, task), reclaimed, now)
    ensures Agrees(n.board, RecordInFlight(file, named, DecodeLease(Some(lease))), names.project, task)
  {
    hide RecordInFlight, WorkNamed, TalksNamed, SessionsNamed, DecodeLease, Key, JobStep;
    if task == named {
      RecordingAgrees(s.board, n.board, file, names.project, task, now, reclaimed);
    } else {
      DifferentKeys(names.project, task, named);
      RecordingOthersKeepsEntry(file, task, named, DecodeLease(Some(lease)));
      UntouchedAgrees(s.board, n.board, file, RecordInFlight(file, named, DecodeLease(Some(lease))), names.project, task);
    }
  }

  lemma SaveReplyAgrees(names: Naming, s: State, file: seq<Entry>, op: Op, now: int, task: Id)
    requires Inv(s) && Named(names, s) && Lawful(names, s, op) && op.DoSaveReply?
    requires task != [] && Agrees(s.board, file, names.project, task)
    ensures var e := SaveReply(s, op.message, op.env, op.claim, op.lease, now);
            Agrees(e.state.board, Recorded(file, op, e), names.project, task)
  {
    hide Inv, Key, RecordSettled, BoardNamed, WorkNamed, TalksNamed, SessionsNamed, IsUsable, HoldsLease, ReplyIsStale, Agrees, SettleWaits, UpsertTask, Touch;
    hide Quiet, BoardOK, Winds;
    var e := SaveReply(s, op.message, op.env, op.claim, op.lease, now);
    SaveReplyKeeps(s, op.message, op.env, op.claim, op.lease, now);
    BoardIsOK(e.state);
    SaveReplyIsTidy(names, s, op, now);
    QuietKeepsAgreement(s.board, e.state.board, file, names.project, task);
    if e.outcome.Accepted? && op.env.task != [] {
      if task == op.env.task {
        ReplyAgreesIff(s, file, op, now);
      } else {
        SettlingOthersKeepsEntry(file, task, op.env.task, DecodeClaim(op.claim));
        UntouchedAgrees(e.state.board, e.state.board, file, Recorded(file, op, e), names.project, task);
      }
    } else {
      NoTaskNoRecord(file, DecodeClaim(op.claim));
    }
  }

  lemma KnownTasksStayKnown(names: Naming, s: State, n: State, env: Envelope)
    requires TaskIsKnown(names, s.board, env) && Quiet(s.board, n.board)
    ensures TaskIsKnown(names, n.board, env)
  {
    hide Key;
  }

  lemma NoTaskNoRecord(file: seq<Entry>, lease: Option<LiveLease>)
    ensures RecordSettled(file, [], lease) == file
  {
  }

  /** A cancel that names a task ends that task's job before the checkpoint is told. */
  lemma CancelAgrees(names: Naming, s: State, file: seq<Entry>, op: Op, now: int, task: Id)
    requires Inv(s) && Named(names, s) && Lawful(names, s, op) && op.DoCancelWork?
    requires task != [] && Agrees(s.board, file, names.project, task)
    ensures var e := CancelWork(s, op.item, op.scope, now);
            Agrees(e.state.board, Recorded(file, op, e), names.project, task)
  {
    hide Inv, Key, RecordSettled, BoardNamed, WorkNamed, TalksNamed, SessionsNamed, CancelWork, Agrees, Quiet, BoardOK, Winds;
    var e := CancelWork(s, op.item, op.scope, now);
    CancelWorkKeeps(s, op.item, op.scope, now);
    CancelledOrRaised(s, op.item, op.scope, now);
    BoardIsOK(e.state);
    CancelIsTidy(names, s, op.item, op.scope, now);
    QuietKeepsAgreement(s.board, e.state.board, file, names.project, task);
    if e.outcome.CancelledItems? {
      if task != op.item {
        SettlingOthersKeepsEntry(file, task, op.item, None);
        UntouchedAgrees(e.state.board, e.state.board, file, Recorded(file, op, e), names.project, task);
      } else if task !in names.tasks {
        OthersHaveNoEntry(names, e.state.board, file, task);
        NothingToSettle(file, task);
      } else {
        CancelledTaskIsFinished(names, s, op.item, op.scope, now);
        FinishedAgrees(e.state.board, Recorded(file, op, e), names.project, task);
      }
    }
  }

  lemma CancelledOrRaised(s: State, item: Id, scope: Option<Id>, now: int)
    ensures CancelWork(s, item, scope, now).outcome.CancelledItems? || CancelWork(s, item, scope, now).outcome.Raised?
  {
    hide CancelTargets, CancelAll, FindConversation, Touch;
  }

  lemma CancelledTaskIsFinished(names: Naming, s: State, item: Id, scope: Option<Id>, now: int)
    requires Inv(s) && Named(names, s) && item in names.tasks && (scope.None? || scope.value == names.project)
    requires CancelWork(s, item, scope, now).outcome.CancelledItems?
    ensures IsFinished(CancelWork(s, item, scope, now).state.board, Key(names.project, item))
  {
    hide Inv, Key, BoardNamed, TalksNamed, SessionsNamed, CancelTargets, CancelAll, FindConversation, Touch, Winds, Quiet, IsUsable, WaitsSettled, NoGrants;
    FoundConversationIsNamed(names, s.talks, item, scope);
    var targets := CancelTargets(s.work, s.work.order, item, scope);
    assert targets != [];
    var id := targets[0];
    TargetsAreThoseNamed(s.work, s.work.order, item, scope, id);
    CancelSettles(s, item, scope, now, id);
    CancelIsTidy(names, s, item, scope, now);
    CancelWorkKeeps(s, item, scope, now);
    GrantlessIsQuiet(s.board, CancelWork(s, item, scope, now).state.board);
    KnownTasksStayKnown(names, s, CancelWork(s, item, scope, now).state, s.work.byId[id].env);
  }

  lemma SessionCallAgrees(names: Naming, cfg: Config, s: State, file: seq<Entry>, op: Op, now: int, task: Id)
    requires Inv(s) && Named(names, s) && ChangesSessions(op) && task != [] && Agrees(s.board, file, names.project, task)
    ensures var e := Act(cfg, s, op, now);
            Agrees(e.state.board, Recorded(file, op, e), names.project, task)
  {
    hide Inv, Key, RecordAllSettled, RecordExpired, Named, Agrees, Quiet, BoardOK, Winds, ExpireSessions, StaleLeases, EndSession, SettleAgent, ItemsFinished;
    var e := Act(cfg, s, op, now);
    WindingActKeeps(cfg, s, op, now);
    BoardIsOK(e.state);
    SessionCallIsTidy(names, cfg, s, op, now);
    BoardIsNamed(names, e.state);
    QuietKeepsAgreement(s.board, e.state.board, file, names.project, task);
    match op {
      case DoReleaseSession(lease, scope) =>
        if SessionFor(s, lease, scope).Some? {
          ReleasedItemsAreFinished(names, s, lease, scope, now);
          SettledItemsAgree(names, e.state.board, file, if e.outcome.Ended? then e.outcome.settled else [], task);
        }
      case DoExpireSessions =>
        ExpiredSessionsAgree(names, e.state, file, StaleLeases(cfg, s.registry, s.registry.order, now), task);
      case _ =>
    }
  }

  lemma BoardIsNamed(names: Naming, s: State)
    requires Named(names, s)
    ensures BoardNamed(names, s.board)
  {
  }

  lemma ReleasedItemsAreFinished(names: Naming, s: State, lease: Id, scope: Option<Id>, now: int)
    requires Inv(s) && Named(names, s) && SessionFor(s, lease, scope).Some?
    ensures var e := ReleaseSession(s, lease, scope, now); e.outcome.Ended? && ItemsFinished(names, e.state.board, e.outcome.settled)
  {
    hide Inv, WorkNamed, BoardNamed, TalksNamed, ItemsFinished, SettleAgent, NoGrants;
    var x := s.registry.byLease[lease];
    SettleAgentIsTidy(names, s, s.work.order, x.agent, x.project, now);
  }

  // ---------------------------------------------------------------------
  // Any call, any run
  // ---------------------------------------------------------------------

  lemma ActAgrees(names: Naming, cfg: Config, s: State, file: seq<Entry>, op: Op, now: int, task: Id)
    requires Inv(s) && Named(names, s) && Lawful(names, s, op) && task != [] && Agrees(s.board, file, names.project, task)
    ensures var e := Act(cfg, s, op, now); Agrees(e.state.board, Recorded(file, op, e), names.project, task)
  {
    hide Inv, Named, Lawful, Agrees, NoGrants, RecordInFlight, RecordSettled, RecordAllSettled, RecordExpired, Winds;
    if op.DoDeliver? {
      DeliverAgrees(names, s, file, op, now, task);
    } else if op.DoHeartbeatJob? {
      HeartbeatAgrees(names, s, file, op, now, task);
    } else if op.DoReclaimJob? {
      ReclaimAgrees(names, s, file, op, now, task);
    } else if op.DoSaveReply? {
      SaveReplyAgrees(names, s, file, op, now, task);
    } else if op.DoCancelWork? {
      CancelAgrees(names, s, file, op, now, task);
    } else if ChangesSessions(op) {
      SessionCallAgrees(names, cfg, s, file, op, now, task);
    } else {
      SilentCallAgrees(names, cfg, s, file, op, now, task);
    }
  }

  predicate IsSilent(op: Op) {
    !MovesLeases(op) && !op.DoSaveReply? && !op.DoCancelWork? && !ChangesSessions(op)
  }

  /** Every other call leaves the checkpoint alone. */
  lemma SilentCallAgrees(names: Naming, cfg: Config, s: State, file: seq<Entry>, op: Op, now: int, task: Id)
    requires Inv(s) && Named(names, s) && Lawful(names, s, op) && task != [] && Agrees(s.board, file, names.project, task) && IsSilent(op)
    ensures var e := Act(cfg, s, op, now); Agrees(e.state.board, Recorded(file, op, e), names.project, task)
  {
    hide Inv, Named, Lawful, Agrees, NoGrants, Act, Proceeds;
    var e := Act(cfg, s, op, now);
    SilentCallsRecordNothing(cfg, s, file, op, now);
    ActKeeps(cfg, s, op, now, []);
    BoardIsOK(e.state);
    ActIsTidy(names, cfg, s, op, now);
    QuietKeepsAgreement(s.board, e.state.board, file, names.project, task);
  }

  lemma SilentCallsRecordNothing(cfg: Config, s: State, file: seq<Entry>, op: Op, now: int)
    requires IsSilent(op)
    ensures Recorded(file, op, Act(cfg, s, op, now)) == file
  {
    hide RecordInFlight, RecordSettled, RecordAllSettled, RecordExpired, Queue, Refusal, Advanced, HoldsLease, Touch, Key;
  }

  ghost function Serving(cfg: Config, calls: seq<Call>): World {
    if calls == [] then FRESH
    else
      var last := calls[|calls| - 1];
      Serve(cfg, Serving(cfg, calls[..|calls| - 1]), last.op, last.now)
  }

  lemma {:induction false} ServiceRunsTheStore(cfg: Config, calls: seq<Call>)
    ensures Serving(cfg, calls).store == Run(cfg, calls)
  {
    hide Apply, Recorded;
    if calls != [] {
      ServiceRunsTheStore(cfg, calls[..|calls| - 1]);
    }
  }

  ghost predicate LawfulRun(names: Naming, cfg: Config, calls: seq<Call>) {
    calls != [] ==> LawfulRun(names, cfg, calls[..|calls| - 1]) && Lawful(names, Before(cfg, calls), calls[|calls| - 1].op)
  }

  lemma ServeAgrees(names: Naming, cfg: Config, w: World, op: Op, now: int, task: Id)
    requires Inv(w.store) && Named(names, w.store) && Lawful(names, Swept(cfg, w.store, op, now), op)
    requires task != [] && Agrees(w.store.board, w.file, names.project, task)
    ensures var n := Serve(cfg, w, op, now);
            Named(names, n.store) && Agrees(n.store.board, n.file, names.project, task)
  {
    hide Inv, Named, Lawful, Agrees, NoGrants, Act, Sweep, Recorded, Settling, Covered, IsSwept;
    var swept := Swept(cfg, w.store, op, now);
    if Sweeps(op) {
      SweepIsComplete(cfg, w.store, now);
      SweepIsTidy(names, cfg, w.store, now);
    } else {
      TidyReflexive(names, w.store);
    }
    BoardIsOK(swept);
    QuietKeepsAgreement(w.store.board, swept.board, w.file, names.project, task);
    ActIsNamed(names, cfg, swept, op, now);
    ActAgrees(names, cfg, swept, w.file, op, now, task);
  }

  lemma FreshIsNamed(names: Naming)
    requires [] !in names.tasks
    ensures Named(names, EMPTY)
  {
  }

  lemma {:induction false} RunIsNamed(names: Naming, cfg: Config, calls: seq<Call>, task: Id)
    requires [] !in names.tasks && task != [] && LawfulRun(names, cfg, calls)
    ensures Named(names, Run(cfg, calls)) && Agrees(Run(cfg, calls).board, Serving(cfg, calls).file, names.project, task)
  {
    hide Inv, Named, Lawful, Apply, Swept, Recorded, Agrees;
    if calls == [] {
      FreshIsNamed(names);
      FreshAgrees(names.project, task);
    } else {
      var before, last := calls[..|calls| - 1], calls[|calls| - 1];
      RunIsNamed(names, cfg, before, task);
      RunKeepsInv(cfg, before);
      ServiceRunsTheStore(cfg, before);
      ServiceRunsTheStore(cfg, calls);
      ServeAgrees(names, cfg, Serving(cfg, before), last.op, last.now, task);
    }
  }

  lemma FreshAgrees(project: Id, task: Id)
    ensures Agrees(EMPTY.board, [], project, task)
  {
  }

  /**
   * After every call of a lawful run, a task with a live lease in the store is in flight in the
   * checkpoint with that same epoch and holder, and a task without a job has no entry.
   */
  lemma CheckpointAgreesWithStore(names: Naming, cfg: Config, calls: seq<Call>, task: Id)
    requires [] !in names.tasks && task != [] && LawfulRun(names, cfg, calls)
    ensures var key := Key(names.project, task);
            var board, entry := Run(cfg, calls).board, Find(Serving(cfg, calls).file, task);
            && (LeaseAt(board, key).Some? ==>
                  entry == Some(Entry(task, LeaseAt(board, key).value.epoch, LeaseAt(board, key).value.holder, InFlight)))
            && (key !in board.jobs ==> entry.None?)
  {
    hide Run, Serving, Key, Named;
    RunIsNamed(names, cfg, calls, task);
  }

  // ---------------------------------------------------------------------
  // Reconciliation at startup
  // ---------------------------------------------------------------------

  lemma {:induction false} RecordedOnePerTask(file: seq<Entry>, op: Op, e: Effect)
    requires OnePerTask(file)
    ensures OnePerTask(Recorded(file, op, e))
  {
    hide RecordInFlight, RecordSettled, RecordAllSettled, RecordExpired, OnePerTask;
    forall task, lease
      ensures OnePerTask(RecordInFlight(file, task, lease)) && OnePerTask(RecordSettled(file, task, lease))
    {
      RecordingOnePerTask(file, task, lease);
    }
    forall items
      ensures OnePerTask(RecordAllSettled(file, items))
    {
      SettlingOnePerTask(file, items);
    }
    forall r, leases
      ensures OnePerTask(RecordExpired(file, r, leases))
    {
      ExpiringOnePerTask(file, r, leases);
    }
  }

  lemma RecordingOnePerTask(file: seq<Entry>, task: Id, lease: Option<LiveLease>)
    requires OnePerTask(file)
    ensures OnePerTask(RecordInFlight(file, task, lease)) && OnePerTask(RecordSettled(file, task, lease))
  {
    hide FirstInFlight;
    forall other
      ensures OnePerTask(Without(file, other))
    {
      WithoutKeepsOnePerTask(file, other);
    }
  }

  lemma {:induction false} SettlingOnePerTask(file: seq<Entry>, items: seq<Id>)
    requires OnePerTask(file)
    ensures OnePerTask(RecordAllSettled(file, items))
  {
    hide RecordSettled, OnePerTask;
    if items != [] {
      SettlingOnePerTask(file, items[..|items| - 1]);
      RecordingOnePerTask(RecordAllSettled(file, items[..|items| - 1]), items[|items| - 1], None);
    }
  }

  lemma {:induction false} ExpiringOnePerTask(file: seq<Entry>, r: Registry, leases: seq<Id>)
    requires OnePerTask(file)
    ensures OnePerTask(RecordExpired(file, r, leases))
  {
    hide RecordAllSettled, OnePerTask;
    if leases != [] {
      ExpiringOnePerTask(file, r, leases[..|leases| - 1]);
      SettlingOnePerTask(RecordExpired(file, r, leases[..|leases| - 1]), SettledBy(r, leases[|leases| - 1]));
    }
  }

  lemma {:induction false} RunKeepsOnePerTask(cfg: Config, calls: seq<Call>)
    ensures OnePerTask(Serving(cfg, calls).file)
  {
    if calls != [] {
      hide Recorded, Apply, OnePerTask;
      var before, last := calls[..|calls| - 1], calls[|calls| - 1];
      RunKeepsOnePerTask(cfg, before);
      var w := Serving(cfg, before);
      RecordedOnePerTask(w.file, last.op, Apply(cfg, w.store, last.op, last.now));
    }
  }

  lemma FindInFile(file: seq<Entry>, e: Entry)
    requires OnePerTask(file) && e in file
    ensures Find(file, e.task) == Some(e)
  {
    var found := Find(file, e.task);
    var i :| 0 <= i < |file| && file[i] == e;
    var j :| 0 <= j < |file| && file[j] == found.value;
  }

  /** Reconciling the checkpoint against the store it was written beside reports no drift for any live lease. */
  lemma NoDriftForLiveLeases(names: Naming, cfg: Config, calls: seq<Call>, live: map<Id, LiveLease>, d: Drift)
    requires [] !in names.tasks && LawfulRun(names, cfg, calls) && IsSnapshot(Run(cfg, calls).board, live)
    requires d in Drifts(Serving(cfg, calls).file, live)
    ensures d.reason == MissingAfterRestart && d.previous.task !in live
  {
    hide Run, Serving, LawfulRun, WorkNamed, TalksNamed, SessionsNamed, IsUsable, BoardOK;
    var file, board := Serving(cfg, calls).file, Run(cfg, calls).board;
    DriftsAreDisagreements(file, live, d);
    var task := d.previous.task;
    if task in live {
      var k :| k in board.jobs && board.jobs[k].id == task && board.jobs[k].lease.Some?
               && live[task] == LiveLease(board.jobs[k].lease.value.epoch, board.jobs[k].lease.value.holder);
      RunIsNamed(names, cfg, calls, "t");
      RunKeepsInv(cfg, calls);
      BoardIsOK(Run(cfg, calls));
      JobsGoByTheirId(names, board, k);
      CheckpointAgreesWithStore(names, cfg, calls, task);
      RunKeepsOnePerTask(cfg, calls);
      FindInFile(file, d.previous);
    }
  }

  lemma JobsGoByTheirId(names: Naming, b: Board, k: Id)
    requires BoardOK(b) && BoardNamed(names, b) && k in b.jobs
    ensures k == Key(names.project, b.jobs[k].id) && b.jobs[k].id in names.tasks
  {
  }

  // ---------------------------------------------------------------------
  // Exactly when a reply, a reclaim, a heartbeat and a cancel keep the agreement
  // ---------------------------------------------------------------------

  /**
   * An accepted reply that names a task keeps the agreement about it exactly when it is faithful. A chat
   * close of a leased task is not: it leaves the lease live but settles it in the checkpoint.
   */
  lemma ReplyAgreesIff(s: State, file: seq<Entry>, op: Op, now: int)
    requires Inv(s) && op.DoSaveReply? && op.env.task != []
    requires Agrees(s.board, file, op.env.project, op.env.task)
    requires SaveReply(s, op.message, op.env, op.claim, op.lease, now).outcome.Accepted?
    ensures var e := SaveReply(s, op.message, op.env, op.claim, op.lease, now);
            Agrees(e.state.board, Recorded(file, op, e), op.env.project, op.env.task) <==> ReplyIsFaithful(s.board, op.env, op.claim)
  {
    hide Inv, SettleWaits, Touch, HoldsLease, Key, UpsertTask, Agrees, ReplyIsFaithful, RecordSettled, BoardOK;
    BoardIsOK(s);
    ProjectedTasksHaveJobs(s.board);
    var key := Key(op.env.project, op.env.task);
    var n := UpsertTask(s.board, op.env, ReplyStatus(op.env), now);
    UpsertKeeps(s.board, op.env, ReplyStatus(op.env), now);
    if key !in s.board.jobs && !op.env.kind.TaskMessage? {
      JoblessReplyAgreesIff(s.board, file, op.env, op.claim, now);
    } else if key in s.board.jobs && op.env.kind.ChatClose? {
      CloseAgreesIff(s.board, file, op.env, op.claim, now);
    } else {
      TaskReplyIsFaithful(s.board, op.env, op.claim, now);
      FinishedAgrees(n, RecordSettled(file, op.env.task, DecodeClaim(op.claim)), op.env.project, op.env.task);
    }
  }

  lemma TaskReplyIsFaithful(b: Board, reply: Envelope, claim: Assertion, now: int)
    requires BoardOK(b) && reply.task != []
    requires if Key(reply.project, reply.task) in b.jobs then !reply.kind.ChatClose? else reply.kind.TaskMessage?
    ensures ReplyIsFaithful(b, reply, claim) && IsFinished(UpsertTask(b, reply, ReplyStatus(reply), now), Key(reply.project, reply.task))
  {
    hide Key, BoardOK, Transition;
    EndingNeverFails(b, reply, ReplyStatus(reply), now);
  }

  /** A reply for a task without a job ends nothing: it may not come with a claim. */
  lemma JoblessReplyAgreesIff(b: Board, file: seq<Entry>, reply: Envelope, claim: Assertion, now: int)
    requires Agrees(b, file, reply.project, reply.task) && reply.task != [] && !reply.kind.TaskMessage?
    requires Key(reply.project, reply.task) !in b.jobs && Key(reply.project, reply.task) !in b.tasks
    ensures Agrees(UpsertTask(b, reply, ReplyStatus(reply), now), RecordSettled(file, reply.task, DecodeClaim(claim)), reply.project, reply.task)
            <==> ReplyIsFaithful(b, reply, claim)
  {
    hide Key, DecodeClaim;
    var lease := DecodeClaim(claim);
    if lease.Some? {
      FindAfterUpsert(file, Entry(reply.task, lease.value.epoch, lease.value.holder, RecentlySettled), reply.task);
    } else {
      NothingToSettle(file, reply.task);
    }
  }

  /** A close leaves a job as it is, but for the lease a delivered one may still lack. */
  lemma ClosedJob(b: Board, reply: Envelope, now: int)
    requires reply.task != [] && reply.kind.ChatClose? && Key(reply.project, reply.task) in b.jobs
    ensures var key := Key(reply.project, reply.task);
            var n := UpsertTask(b, reply, ReplyStatus(reply), now);
            key in n.jobs && n.jobs[key] == Dispatched(b.jobs[key], reply.target, now)
  {
    hide Key;
  }

  lemma CloseAgreesIff(b: Board, file: seq<Entry>, reply: Envelope, claim: Assertion, now: int)
    requires BoardOK(b) && Agrees(b, file, reply.project, reply.task) && reply.task != [] && reply.kind.ChatClose?
    requires Key(reply.project, reply.task) in b.jobs && !ReplyIsStale(b, reply, claim)
    ensures Agrees(UpsertTask(b, reply, ReplyStatus(reply), now), RecordSettled(file, reply.task, DecodeClaim(claim)), reply.project, reply.task)
            <==> ReplyIsFaithful(b, reply, claim)
  {
    ClosedJob(b, reply, now);
    JobIsShaped(b, Key(reply.project, reply.task));
    hide Key, Strip, UpsertTask, Upsert, BoardOK, FreshLease;
    var job := b.jobs[Key(reply.project, reply.task)];
    var lease := DecodeClaim(claim);
    if lease.Some? {
      FindAfterUpsert(file, Entry(reply.task, lease.value.epoch, lease.value.holder, RecentlySettled), reply.task);
    } else if job.lease.Some? {
      FirstInFlightFound(file, reply.task);
      FindAfterUpsert(file, FirstInFlight(file, reply.task).value.(status := RecentlySettled), reply.task);
    } else if !IsTerminal(job.status) {
      NothingToSettle(file, reply.task);
    }
  }

  /** A newly granted lease is on record as it stands exactly when its holder has no blanks around it. */
  lemma RecordAgreesIff(b: Board, file: seq<Entry>, project: Id, task: Id, l: Lease)
    requires task != [] && LeaseAt(b, Key(project, task)) == Some(l)
    requires Find(file, task).Some? ==> Find(file, task).value.epoch < l.epoch
    ensures Agrees(b, RecordInFlight(file, task, DecodeLease(Some(l))), project, task) <==> IsUsable(l.holder)
  {
    hide Key, Strip, Upsert;
    FindAfterUpsert(file, Entry(task, l.epoch, Strip(l.holder), InFlight), task);
  }

  /** A delivery that grants a task its first lease keeps the agreement exactly when the target is usable. */
  lemma DeliverAgreesIff(s: State, file: seq<Entry>, op: Op, now: int)
    requires Inv(s) && op.DoDeliver? && !PollRefused(s, op.agent, op.scope, op.lease)
    requires op.env.id in s.work.byId && IsBusy(s.work.byId[op.env.id].status)
    requires var env := s.work.byId[op.env.id].env; env.kind.TaskMessage? && env.task != []
    requires var env := s.work.byId[op.env.id].env;
             && Agrees(s.board, file, env.project, env.task) && LeaseAt(s.board, Key(env.project, env.task)).None?
             && LeaseAt(Deliver(s, op.agent, op.scope, op.lease, op.env, now).state.board, Key(env.project, env.task)).Some?
    ensures var env := s.work.byId[op.env.id].env;
            var e := Deliver(s, op.agent, op.scope, op.lease, op.env, now);
            Agrees(e.state.board, Recorded(file, op, e), env.project, env.task) <==> IsUsable(env.target)
  {
    hide Key, Inv, Deliver, PollRefused, RecordInFlight, DecodeLease, IsUsable, JobStep;
    var env := s.work.byId[op.env.id].env;
    var key := Key(env.project, env.task);
    var e := Deliver(s, op.agent, op.scope, op.lease, op.env, now);
    DeliveryLeasesUnlessRunning(s, op.agent, op.scope, op.lease, op.env, now);
    DeliveredLeaseHolder(s, op.agent, op.scope, op.lease, op.env, now);
    RecordAgreesIff(e.state.board, file, env.project, env.task, LeaseAt(e.state.board, key).value);
  }

  lemma DeliveredLeaseHolder(s: State, agent: Id, scope: Option<Id>, lease: Id, item: Envelope, now: int)
    requires Inv(s) && !PollRefused(s, agent, scope, lease)
    requires item.id in s.work.byId && IsBusy(s.work.byId[item.id].status)
    requires var env := s.work.byId[item.id].env; env.kind.TaskMessage? && env.task != []
    requires LeaseAt(s.board, Key(s.work.byId[item.id].env.project, s.work.byId[item.id].env.task)).None?
    ensures var env := s.work.byId[item.id].env;
            var e := Deliver(s, agent, scope, lease, item, now);
            var after := LeaseAt(e.state.board, Key(env.project, env.task));
            after.Some? ==> !e.outcome.Raised? && after.value.holder == env.target && !IsFinished(s.board, Key(env.project, env.task))
  {
    hide Key, Inv, PollRefused, Transition, Touch;
    JobsAreShaped(s);
    AskedToDeliver(JobFor(s.board, s.work.byId[item.id].env).value);
  }

  /**
   * A reclaim of an expired lease keeps the agreement about its own task exactly when the new holder is
   * usable; and with a usable holder exactly when the job goes by the task id the call gave.
   */
  lemma ReclaimAgreesIff(s: State, file: seq<Entry>, op: Op, now: int, project: Id)
    requires Inv(s) && op.DoReclaimJob? && op.task != [] && (op.scope.None? || op.scope.value == project)
    requires Agrees(s.board, file, project, op.task)
    requires var e := ReclaimJob(s, op.task, op.holder, op.scope, now); e.outcome.LeaseReclaimed? && e.outcome.reclaimed
    ensures var e := ReclaimJob(s, op.task, op.holder, op.scope, now);
            var own := FindJob(s.board, op.task, op.scope) == Some(Key(project, op.task));
            var agrees := Agrees(e.state.board, Recorded(file, op, e), project, op.task);
            && (own ==> (agrees <==> IsUsable(op.holder)))
            && (IsUsable(op.holder) ==> (agrees <==> own))
  {
    hide Key, Inv, FindJob, StoreLease, Reclaim, RecordInFlight, DecodeLease, IsUsable;
    FoundJobIsStored(s.board, op.task, op.scope);
    JobsAreShaped(s);
    var found := FindJob(s.board, op.task, op.scope).value;
    var lease := s.board.jobs[found].lease.value;
    var next := Reclaim(lease, op.holder, now);
    ReclaimRaisesEpoch(lease, op.holder, now);
    StoreLeaseKeeps(s, found, JobStatus.Running, next);
    var n := StoreLease(s, found, JobStatus.Running, next).board;
    if found == Key(project, op.task) {
      RecordAgreesIff(n, file, project, op.task, next);
    } else {
      OtherJobIsFound(s.board, project, op.task, op.scope);
      if IsUsable(op.holder) {
        StrangeRecordDisagrees(n, file, project, op.task, next);
      }
    }
  }

  /** A call that finds another job than its task id's own finds no job under that id at all. */
  lemma OtherJobIsFound(b: Board, project: Id, task: Id, scope: Option<Id>)
    requires FindJob(b, task, scope).Some? && FindJob(b, task, scope).value != Key(project, task)
    requires scope.None? || scope.value == project
    ensures Key(project, task) !in b.jobs
  {
    FoundJobIsStored(b, task, scope);
    if Key(project, task) in b.jobs {
      assert EndsWith(Key(project, task), [':'] + task);
    }
  }

  lemma StrangeRecordDisagrees(b: Board, file: seq<Entry>, project: Id, task: Id, l: Lease)
    requires task != [] && Key(project, task) !in b.jobs && IsUsable(l.holder)
    ensures !Agrees(b, RecordInFlight(file, task, DecodeLease(Some(l))), project, task)
  {
    hide Key, Strip, Upsert;
    FindAfterUpsert(file, Entry(task, l.epoch, l.holder, InFlight), task);
  }

  /** A heartbeat keeps the agreement about the id it gives exactly when the job goes by that id. */
  lemma HeartbeatAgreesIff(s: State, file: seq<Entry>, op: Op, now: int, project: Id)
    requires Inv(s) && op.DoHeartbeatJob? && op.task != [] && (op.scope.None? || op.scope.value == project) && IsUsable(op.holder)
    requires Agrees(s.board, file, project, op.task)
    requires HeartbeatJob(s, op.task, op.holder, op.epoch, op.scope, op.heartbeatMs, now).outcome.LeaseRenewed?
    ensures var e := HeartbeatJob(s, op.task, op.holder, op.epoch, op.scope, op.heartbeatMs, now);
            Agrees(e.state.board, Recorded(file, op, e), project, op.task) <==> FindJob(s.board, op.task, op.scope) == Some(Key(project, op.task))
  {
    hide Key, Inv, FindJob, StoreLease, Renew, RecordInFlight, DecodeLease, IsUsable, JobStep, Agrees;
    FoundJobIsStored(s.board, op.task, op.scope);
    JobsAreShaped(s);
    var found := FindJob(s.board, op.task, op.scope).value;
    var lease := s.board.jobs[found].lease.value;
    var renewed := Renew(lease, op.heartbeatMs, now);
    RenewKeepsHolder(lease, op.heartbeatMs, now);
    StoreLeaseKeeps(s, found, s.board.jobs[found].status, renewed);
    var n := StoreLease(s, found, s.board.jobs[found].status, renewed).board;
    if found == Key(project, op.task) {
      HeartbeatJobKeeps(s, op.task, op.holder, op.epoch, op.scope, op.heartbeatMs, now, found);
      UsableHolder(renewed.holder);
      RecordingAgrees(s.board, n, file, project, op.task, now, false);
    } else {
      OtherJobIsFound(s.board, project, op.task, op.scope);
      StrangeRecordDisagrees(n, file, project, op.task, renewed);
    }
  }

  lemma UsableHolder(holder: Id)
    requires IsUsable(holder)
    ensures holder != [] && Strip(holder) == holder
  {
  }

  predicate IsWorkOn(m: Message, key: Id) {
    m.env.task != [] && Key(m.env.project, m.env.task) == key
  }

  /** Cancelling messages of other tasks leaves a job as it is. */
  lemma {:induction false} CancelAllSpares(s: State, ids: seq<Id>, now: int, key: Id)
    requires forall i :: 0 <= i < |ids| && ids[i] in s.work.byId ==> !IsWorkOn(s.work.byId[ids[i]], key)
    ensures var n := CancelAll(s, ids, now);
            && (key in n.board.jobs <==> key in s.board.jobs) && (key in s.board.jobs ==> n.board.jobs[key] == s.board.jobs[key])
            && (forall id :: id in n.work.byId ==> id in s.work.byId && n.work.byId[id].env == s.work.byId[id].env)
    decreases |ids|
  {
    hide Key, Transition, Dispatched, Touch, SettleWaits;
    if ids != [] {
      CancelAllSpares(s, ids[..|ids| - 1], now, key);
    }
  }

  /**
   * An accepted cancel keeps the agreement about the id it names exactly when that is not a leased task,
   * or one of the messages it ends is work on that task.
   */
  lemma CancelAgreesIff(s: State, file: seq<Entry>, op: Op, now: int, project: Id)
    requires Inv(s) && op.DoCancelWork? && op.item != [] && Agrees(s.board, file, project, op.item)
    requires CancelWork(s, op.item, op.scope, now).outcome.CancelledItems?
    ensures var e := CancelWork(s, op.item, op.scope, now);
            var key := Key(project, op.item);
            Agrees(e.state.board, Recorded(file, op, e), project, op.item) <==>
            (LeaseAt(s.board, key).Some? ==>
               exists id :: id in s.work.byId && IsCancelTarget(s.work.byId[id], op.item, op.scope) && IsWorkOn(s.work.byId[id], key))
  {
    hide Inv, Key, CancelWork, IsCancelTarget, RecordSettled, BoardOK, Agrees, LessBusy, TalksQuiet, WaitsGrow, WaitsSettled;
    var key := Key(project, op.item);
    var e := CancelWork(s, op.item, op.scope, now);
    CancelWorkKeeps(s, op.item, op.scope, now);
    BoardIsOK(e.state);
    if exists id :: id in s.work.byId && IsCancelTarget(s.work.byId[id], op.item, op.scope) && IsWorkOn(s.work.byId[id], key) {
      var id :| id in s.work.byId && IsCancelTarget(s.work.byId[id], op.item, op.scope) && IsWorkOn(s.work.byId[id], key);
      CancelSettles(s, op.item, op.scope, now, id);
      TerminalJobIsUnleased(e.state.board, key);
    } else {
      CancelSparesOthers(s, op.item, op.scope, now, key);
    }
    SettledAgreesIff(s.board, e.state.board, file, project, op.item);
  }

  lemma TerminalJobIsUnleased(b: Board, key: Id)
    requires BoardOK(b)
    ensures key in b.jobs && IsTerminal(b.jobs[key].status) ==> LeaseAt(b, key).None?
  {
  }

  lemma CancelSparesOthers(s: State, item: Id, scope: Option<Id>, now: int, key: Id)
    requires forall id :: id in s.work.byId && IsCancelTarget(s.work.byId[id], item, scope) ==> !IsWorkOn(s.work.byId[id], key)
    ensures var n := CancelWork(s, item, scope, now).state;
            (key in n.board.jobs <==> key in s.board.jobs) && (key in s.board.jobs ==> n.board.jobs[key] == s.board.jobs[key])
  {
    hide Key, CancelTargets, CancelAll, FindConversation, Touch, IsCancelTarget, IsWorkOn;
    var targets := CancelTargets(s.work, s.work.order, item, scope);
    forall i | 0 <= i < |targets| && targets[i] in s.work.byId
      ensures !IsWorkOn(s.work.byId[targets[i]], key)
    {
      TargetsAreThoseNamed(s.work, s.work.order, item, scope, targets[i]);
    }
    CancelAllSpares(s, targets, now, key);
  }

  /** Settling a task's entry without a lease suits the store unless the task is still leased there. */
  lemma SettledAgreesIff(b: Board, n: Board, file: seq<Entry>, project: Id, task: Id)
    requires Agrees(b, file, project, task) && task != [] && BoardOK(n)
    requires var key := Key(project, task);
             || (key in n.jobs && IsTerminal(n.jobs[key].status))
             || ((key in n.jobs <==> key in b.jobs) && (key in b.jobs ==> n.jobs[key] == b.jobs[key]))
    ensures Agrees(n, RecordSettled(file, task, None), project, task) <==> LeaseAt(n, Key(project, task)).None?
  {
    hide Key, Upsert;
    if LeaseAt(n, Key(project, task)).Some? {
      FirstInFlightFound(file, task);
      FindAfterUpsert(file, FirstInFlight(file, task).value.(status := RecentlySettled), task);
    } else if Find(file, task).None? {
      NothingToSettle(file, task);
    }
  }

  lemma SettledStaysSettled(file: seq<Entry>, task: Id, item: Id)
    requires Find(file, task).Some? && Find(file, task).value.status.RecentlySettled?
    ensures var found := Find(RecordSettled(file, item, None), task); found.Some? && found.value.status.RecentlySettled?
  {
    hide Upsert;
    var prior := FirstInFlight(file, item);
    if prior.Some? {
      FirstInFlightIsThere(file, item);
      FindAfterUpsert(file, prior.value.(status := RecentlySettled), task);
    }
  }

  /** Settling a list of items suits the store about one task exactly when it is not both leased and listed. */
  lemma {:induction false} SettledItemsAgreeIff(b: Board, file: seq<Entry>, items: seq<Id>, project: Id, task: Id)
    requires BoardOK(b) && task != [] && Agrees(b, file, project, task)
    ensures var after := RecordAllSettled(file, items);
            && (Agrees(b, after, project, task) <==> LeaseAt(b, Key(project, task)).None? || task !in items)
            && (LeaseAt(b, Key(project, task)).Some? && task in items ==>
                  Find(after, task).Some? && Find(after, task).value.status.RecentlySettled?)
  {
    hide Key, RecordSettled;
    if items != [] {
      var before, item := items[..|items| - 1], items[|items| - 1];
      var recorded := RecordAllSettled(file, before);
      SettledItemsAgreeIff(b, file, before, project, task);
      assert items == before + [item];
      if LeaseAt(b, Key(project, task)).Some? && task in before {
        SettledStaysSettled(recorded, task, item);
      } else if item != task {
        SettlingOthersKeepsEntry(recorded, task, item, None);
      } else if LeaseAt(b, Key(project, task)).Some? {
        SettledAgreesIff(b, b, recorded, project, task);
        LeasedEntrySettles(recorded, task);
      } else {
        SettledAgreesIff(b, b, recorded, project, task);
      }
    }
  }

  lemma LeasedEntrySettles(file: seq<Entry>, task: Id)
    requires task != [] && Find(file, task).Some? && Find(file, task).value.status.InFlight?
    ensures var found := Find(RecordSettled(file, task, None), task); found.Some? && found.value.status.RecentlySettled?
  {
    hide Upsert;
    FirstInFlightFound(file, task);
    FindAfterUpsert(file, FirstInFlight(file, task).value.(status := RecentlySettled), task);
  }

  /**
   * Releasing a session that already ended settles its items a second time; the agreement about a task
   * survives that exactly when the task is not listed, or not leased.
   */
  lemma SecondReleaseAgreesIff(s: State, file: seq<Entry>, op: Op, now: int, project: Id, task: Id)
    requires Inv(s) && op.DoReleaseSession? && task != [] && Agrees(s.board, file, project, task)
    requires SessionFor(s, op.lease, op.scope).Some? && !s.registry.byLease[op.lease].status.Active?
    ensures var e := ReleaseSession(s, op.lease, op.scope, now);
            Agrees(e.state.board, Recorded(file, op, e), project, task) <==>
            LeaseAt(s.board, Key(project, task)).None? || task !in s.registry.byLease[op.lease].settled
  {
    hide Inv, Key, RecordAllSettled, BoardOK, Agrees;
    BoardIsOK(s);
    SettledItemsAgreeIff(s.board, file, s.registry.byLease[op.lease].settled, project, task);
  }

  /** Two projects' tasks of one id share their checkpoint entry: it can only suit both when their leases are alike. */
  lemma ProjectsShareAnEntry(b: Board, project: Id, other: Id, task: Id)
    requires LeaseAt(b, Key(project, task)).Some? && LeaseAt(b, Key(other, task)).Some?
    ensures var l, m := LeaseAt(b, Key(project, task)).value, LeaseAt(b, Key(other, task)).value;
            (exists file :: Agrees(b, file, project, task) && Agrees(b, file, other, task)) <==> Matches(l, m.holder, m.epoch)
  {
    hide Key;
    var l := LeaseAt(b, Key(project, task)).value;
    var file := [Entry(task, l.epoch, l.holder, InFlight)];
    if Matches(l, LeaseAt(b, Key(other, task)).value.holder, LeaseAt(b, Key(other, task)).value.epoch) {
      assert Agrees(b, file, project, task) && Agrees(b, file, other, task);
    }
  }

  lemma JobIsShaped(b: Board, key: Id)
    requires BoardOK(b) && key in b.jobs
    ensures JobShape(b.jobs[key])
  {
  }

  lemma FirstInFlightFound(file: seq<Entry>, task: Id)
    ensures Find(file, task).Some? && Find(file, task).value.status.InFlight? ==> FirstInFlight(file, task) == Find(file, task)
  {
  }
}

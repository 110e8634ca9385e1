/** Every operation, on every exit, keeps the invariant and moves jobs only as their lifecycle and leases allow. */
module BrokerActs {
  import opened Basics
  import opened Jobs
  import opened BrokerState
  import opened BrokerOps
  import opened BrokerInvariants
  import opened BrokerSteps

  // ---------------------------------------------------------------------
  // Operations that only wind work down
  // ---------------------------------------------------------------------

  lemma AdvancedKeeps(s: State, id: Id, status: MessageStatus, talk: Option<ConversationStatus>, now: int)
    requires Inv(s) && id in s.work.byId && IsBusy(s.work.byId[id].status)
    ensures var n := Advanced(s, id, status, talk, now).state; Inv(n) && Winds(s, n) && n.registry == s.registry
  {
    hide WaitsOK, BoardOK, TalksOK, RegistryOK, OneSessionPerAgent, UpsertTask, UpsertFails, Touch, Quiet, TalksQuiet, LessBusy, WorkOK, OneBusyPerWorker;
    WindsReflexive(s);
    var env := s.work.byId[id].env;
    EndingKeepsWork(s.work, id, status);
    UpsertKeeps(s.board, env, status, now);
    TouchKeeps(s.talks, env, talk);
  }

  lemma DeliverKeeps(s: State, agent: Id, scope: Option<Id>, lease: Id, item: Envelope, now: int)
    requires Inv(s)
    ensures var n := Deliver(s, agent, scope, lease, item, now).state; Inv(n) && Winds(s, n) && n.registry == s.registry
  {
    hide Inv, Winds, Advanced, PollRefused, Key;
    WindsReflexive(s);
    if item.id in s.work.byId && IsBusy(s.work.byId[item.id].status) {
      AdvancedKeeps(s, item.id, MessageStatus.Delivered, None, now);
    }
  }

  lemma WindsReflexive(s: State)
    ensures Winds(s, s)
  {
  }

  lemma SaveReplyKeeps(s: State, messageId: Id, reply: Envelope, a: Assertion, sessionLease: Id, now: int)
    requires Inv(s)
    ensures var n := SaveReply(s, messageId, reply, a, sessionLease, now).state; Inv(n) && Winds(s, n) && n.registry == s.registry
  {
    hide WaitsOK, BoardOK, TalksOK, RegistryOK, OneSessionPerAgent, UpsertTask, Touch, Quiet, TalksQuiet, LessBusy, WorkOK, OneBusyPerWorker, SettleWaits, WaitsGrow, HoldsLease, ReplyIsStale;
    WindsReflexive(s);
    var status := ReplyStatus(reply);
    if messageId in s.work.byId {
      EndingKeepsWork(s.work, messageId, status);
    }
    UpsertKeeps(s.board, reply, status, now);
    TouchKeeps(s.talks, reply, Some(TalkStatusOf(status)));
    WaitsOfSettle(s.waits, reply, status, GotReply(reply.id));
  }

  lemma UpdateStatusKeeps(s: State, messageId: Id, status: MessageStatus, sessionLease: Id, now: int)
    requires Inv(s)
    ensures var n := UpdateStatus(s, messageId, status, sessionLease, now).state; Inv(n) && Winds(s, n) && n.registry == s.registry
  {
    hide Inv, Winds, Advanced, HoldsLease;
    WindsReflexive(s);
    if messageId in s.work.byId && IsBusy(s.work.byId[messageId].status) {
      AdvancedKeeps(s, messageId, status, Some(TalkStatusOf(status)), now);
    }
  }

  lemma RunProjectionKeeps(b: Board, n: Board, key: Id)
    requires BoardOK(n) && Quiet(b, n)
    ensures BoardOK(RunProjection(n, key)) && Quiet(b, RunProjection(n, key))
  {
  }

  lemma RecordActivityKeeps(s: State, a: Activity, now: int)
    requires Inv(s)
    ensures var n := RecordActivity(s, a, now).state; Inv(n) && Winds(s, n) && n.registry == s.registry
  {
    hide WaitsOK, BoardOK, TalksOK, RegistryOK, OneSessionPerAgent, UpsertTask, Quiet, TalksQuiet, LessBusy, WorkOK, OneBusyPerWorker, HoldsLease, ActivityTarget, RunProjection, Key;
    WindsReflexive(s);
    var target := ActivityTarget(s.work, a);
    var board := s.board;
    if target.Some? && target.value in s.work.byId && IsBusy(s.work.byId[target.value].status) {
      var env := s.work.byId[target.value].env;
      EndingKeepsWork(s.work, target.value, MessageStatus.Running);
      UpsertKeeps(s.board, env, MessageStatus.Running, now);
      if env.kind.TaskMessage? {
        board := UpsertTask(s.board, env, MessageStatus.Running, now);
      }
    }
    RunProjectionKeeps(s.board, board, Key(a.project, a.task));
  }

  lemma CancelWorkKeeps(s: State, item: Id, scope: Option<Id>, now: int)
    requires Inv(s)
    ensures var n := CancelWork(s, item, scope, now).state; Inv(n) && Winds(s, n) && n.registry == s.registry
  {
    hide WaitsOK, BoardOK, RegistryOK, OneSessionPerAgent, Touch, Quiet, TalksQuiet, LessBusy, WorkOK, OneBusyPerWorker, CancelAll, CancelTargets, WaitsGrow, TalksOK, IsSettled;
    WindsReflexive(s);
    CancelAllKeeps(s, CancelTargets(s.work, s.work.order, item, scope), now);
    var found := FindConversation(s.talks, item, scope);
    if found.Some? {
      TouchKeeps(s.talks, TalkEnvelope(found.value, item, ChatTurn, found.value.turn), Some(ConversationStatus.Cancelled));
    }
  }

  lemma TouchedKeeps(s: State, env: Envelope, status: Option<ConversationStatus>)
    requires Inv(s)
    ensures var n := s.(talks := Touch(s.talks, env, status)); Inv(n) && Winds(s, n)
  {
    hide WaitsOK, BoardOK, RegistryOK, OneSessionPerAgent, Touch, Quiet, TalksQuiet, LessBusy, WorkOK, OneBusyPerWorker, WaitsGrow, TalksOK;
    WindsReflexive(s);
    TouchKeeps(s.talks, env, status);
  }

  lemma CloseConversationKeeps(s: State, id: Id, env: Envelope)
    requires Inv(s)
    ensures var n := CloseConversation(s, id, env).state; Inv(n) && Winds(s, n) && n.registry == s.registry
  {
    hide Inv, Winds, Touch, FindConversation;
    WindsReflexive(s);
    forall close, status
      ensures Inv(s.(talks := Touch(s.talks, close, status))) && Winds(s, s.(talks := Touch(s.talks, close, status)))
    {
      TouchedKeeps(s, close, status);
    }
  }

  lemma TimeoutReplyKeeps(s: State, correlation: Id, now: int)
    requires Inv(s)
    ensures var n := TimeoutReply(s, correlation, now).state; Inv(n) && Winds(s, n) && n.registry == s.registry
  {
    hide WaitsOK, BoardOK, TalksOK, RegistryOK, OneSessionPerAgent, UpsertTask, Touch, Quiet, TalksQuiet, LessBusy, WorkOK, OneBusyPerWorker, FirstCorrelated;
    WindsReflexive(s);
    var target := FirstCorrelated(s.work, s.work.order, correlation);
    if target.Some? && target.value in s.work.byId {
      var env := s.work.byId[target.value].env;
      EndingKeepsWork(s.work, target.value, MessageStatus.Timeout);
      UpsertKeeps(s.board, env, MessageStatus.Timeout, now);
      TouchKeeps(s.talks, env, Some(ConversationStatus.Timeout));
    }
  }

  lemma FenceKeepsState(s: State, op: Op)
    ensures op.DoAppendTranscript? ==> TranscriptFence(s, op.project, op.task, op.agent, op.lease, op.claim).state == s
    ensures op.DoRecordTelemetry? ==>
              var n := RecordTelemetry(s, op.project, op.task, op.agent, op.lease, op.claim, op.toolCount).state;
              n == s.(telemetry := n.telemetry)
  {
  }

  // ---------------------------------------------------------------------
  // Waiting callers
  // ---------------------------------------------------------------------

  lemma PrepareTaskWaitKeeps(s: State, task: Id, scope: Option<Id>)
    requires Inv(s)
    ensures var n := PrepareTaskWait(s, task, scope).state; Inv(n) && Winds(s, n) && n.registry == s.registry && n.work == s.work
  {
    WindsReflexive(s);
    var e := PrepareTaskWait(s, task, scope);
    if e.outcome.Waiting? {
      NewWaiterKeeps(s.waits, match scope case None => task case Some(p) => Key(p, task), scope.Some?);
    }
    hide WaitsOK, BoardOK, TalksOK, RegistryOK, OneSessionPerAgent, WorkOK, OneBusyPerWorker, LessBusy, Quiet, TalksQuiet, WaitsGrow, IsOnlyResult, Key;
  }

  lemma NewWaiterKeeps(w: Waits, key: Id, scoped: bool)
    requires WaitsOK(w) && (scoped ==> key !in w.results)
    ensures var waits := NewFuture(w, TaskWait(key, scoped));
            var n := waits.(waiters := waits.waiters[key := WaitersAt(waits, key) + [|w.futures|]]);
            WaitsOK(n) && WaitsGrow(w, n)
  {
    var waits := NewFuture(w, TaskWait(key, scoped));
    var n := waits.(waiters := waits.waiters[key := WaitersAt(waits, key) + [|w.futures|]]);
    forall f: nat | IsPendingTaskWait(n, f)
      ensures f in WaitersAt(n, n.futures[f].kind.key)
    {
      if f < |w.futures| {
        assert IsPendingTaskWait(w, f);
        assert f in WaitersAt(w, w.futures[f].kind.key);
      } else {
        assert n.waiters[key][|WaitersAt(waits, key)|] == f;
      }
    }
  }

  lemma PrepareReplyWaitKeeps(s: State, correlation: Id)
    requires Inv(s)
    ensures var n := PrepareReplyWait(s, correlation).state; Inv(n) && Winds(s, n) && n.registry == s.registry && n.work == s.work
  {
    ReplyFutureKeeps(s.waits, correlation);
    hide WaitsOK, BoardOK, TalksOK, RegistryOK, OneSessionPerAgent, WorkOK, OneBusyPerWorker, LessBusy, Quiet, TalksQuiet, WaitsGrow;
    WindsReflexive(s);
  }

  lemma ReplyFutureKeeps(w: Waits, correlation: Id)
    requires WaitsOK(w)
    ensures var n := ReplyFuture(w, correlation);
            && WaitsOK(n) && WaitsGrow(w, n) && correlation in n.replies && n.replies[correlation] < |n.futures|
  {
    var n := ReplyFuture(w, correlation);
    forall f: nat | IsPendingTaskWait(n, f)
      ensures f in WaitersAt(n, n.futures[f].kind.key)
    {
      assert IsPendingTaskWait(w, f);
    }
  }

  lemma AbandonKeeps(w: Waits, f: nat)
    requires WaitsOK(w)
    ensures var n := w.(futures := Complete(w.futures, f, Abandoned)); WaitsOK(n) && WaitsGrow(w, n)
  {
    var n := w.(futures := Complete(w.futures, f, Abandoned));
    assert KindsKept(w, n);
    ShorterListsAreTyped(w, n);
  }

  lemma CleanupTaskWaiterKeeps(w: Waits, key: Id, f: nat)
    requires WaitsOK(w) && !IsPending(w, f)
    ensures var left := Remove(WaitersAt(w, key), f);
            var n := w.(waiters := if left == [] then w.waiters - {key} else w.waiters[key := left]);
            WaitsOK(n) && WaitsGrow(w, n)
  {
    var left := Remove(WaitersAt(w, key), f);
    var n := w.(waiters := if left == [] then w.waiters - {key} else w.waiters[key := left]);
    forall g: nat | IsPendingTaskWait(n, g)
      ensures g in WaitersAt(n, n.futures[g].kind.key)
    {
      assert IsPendingTaskWait(w, g) && g != f;
    }
    forall k, i | k in n.waiters && 0 <= i < |n.waiters[k]|
      ensures IsTaskWaitFor(n, n.waiters[k][i], k)
    {
      if k == key {
        assert n.waiters[k][i] in left;
        var j :| 0 <= j < |w.waiters[k]| && w.waiters[k][j] == n.waiters[k][i];
        assert IsTaskWaitFor(w, w.waiters[k][j], k);
      }
    }
  }

  lemma WaitingKeeps(cfg: Config, s: State, op: Op, now: int)
    requires Inv(s) && (op.DoAbandonWait? || op.DoCleanupTaskWaiter? || op.DoCleanupReplyWaiter?)
    ensures var n := Act(cfg, s, op, now).state; Inv(n) && Winds(s, n) && n.registry == s.registry && n.work == s.work
  {
    hide WaitsOK, BoardOK, TalksOK, RegistryOK, OneSessionPerAgent, WorkOK, OneBusyPerWorker, LessBusy, Quiet, TalksQuiet, WaitsGrow, IsPending, Complete, Remove;
    WindsReflexive(s);
    match op {
      case DoAbandonWait(f) => AbandonKeeps(s.waits, f);
      case DoCleanupTaskWaiter(key, f) => if !IsPending(s.waits, f) { CleanupTaskWaiterKeeps(s.waits, key, f); }
      case DoCleanupReplyWaiter(_, _) => CleanupReplyWaiterKeeps(s.waits, op.correlation);
    }
  }

  lemma CleanupReplyWaiterKeeps(w: Waits, correlation: Id)
    requires WaitsOK(w)
    ensures WaitsOK(w.(replies := w.replies - {correlation})) && WaitsGrow(w, w.(replies := w.replies - {correlation}))
  {
    var n := w.(replies := w.replies - {correlation});
    forall f: nat | IsPendingTaskWait(n, f)
      ensures f in WaitersAt(n, n.futures[f].kind.key)
    {
      assert IsPendingTaskWait(w, f);
    }
    forall k, i | k in n.waiters && 0 <= i < |n.waiters[k]|
      ensures IsTaskWaitFor(n, n.waiters[k][i], k)
    {
      assert IsTaskWaitFor(w, w.waiters[k][i], k);
    }
  }

  // ---------------------------------------------------------------------
  // Sessions
  // ---------------------------------------------------------------------

  lemma AcquireKeeps(cfg: Config, s: State, c: AcquireCommand, now: int)
    requires Inv(s)
    ensures var n := Acquire(cfg, s, c, now).state; Inv(n) && Winds(s, n) && n == s.(registry := n.registry)
  {
    hide WaitsOK, BoardOK, TalksOK, WorkOK, OneBusyPerWorker, LessBusy, Quiet, TalksQuiet, WaitsGrow;
    WindsReflexive(s);
  }

  lemma HeartbeatSessionKeeps(s: State, lease: Id, scope: Option<Id>, worker: Id, now: int)
    requires Inv(s)
    ensures var n := HeartbeatSession(s, lease, scope, worker, now).state; Inv(n) && Winds(s, n) && n == s.(registry := n.registry)
  {
    hide WaitsOK, BoardOK, TalksOK, WorkOK, OneBusyPerWorker, LessBusy, Quiet, TalksQuiet, WaitsGrow;
    WindsReflexive(s);
  }

  lemma ReleaseSessionKeeps(s: State, lease: Id, scope: Option<Id>, now: int)
    requires Inv(s)
    ensures var n := ReleaseSession(s, lease, scope, now).state; Inv(n) && Winds(s, n) && (Covered(s) ==> Covered(n))
  {
    hide Inv, EndSession, Winds, Covered, SettleAgent;
    WindsReflexive(s);
    if SessionFor(s, lease, scope).Some? {
      EndSessionKeeps(s, lease, Released, now);
    }
  }

  // ---------------------------------------------------------------------
  // Enqueue
  // ---------------------------------------------------------------------

  /** A message for a free target leaves every worker with at most one busy item. */
  lemma PutOnFreeTargetKeeps(cfg: Config, s: State, env: Envelope, status: MessageStatus, now: int)
    requires WorkOK(s.work) && OneBusyPerWorker(s.work.byId) && TargetRefusal(cfg, s, env).None?
    ensures var w := PutMessage(s.work, Message(env, status, now)); WorkOK(w) && OneBusyPerWorker(w.byId)
  {
    var m := Message(env, status, now);
    if Occupies(m) {
      assert forall id :: id in s.work.byId ==> !BlocksTarget(s.work.byId[id], env);
    }
  }

  lemma QueueKeeps(cfg: Config, s: State, env: Envelope, createWaiter: bool, now: int)
    requires Inv(s) && TargetRefusal(cfg, s, env).None?
    ensures var n := Queue(s, env, createWaiter, now).state;
            && Inv(n) && Quiet(s.board, n.board) && TalksQuiet(s.talks, n.talks) && WaitsGrow(s.waits, n.waits) && n.registry == s.registry
  {
    hide WaitsOK, BoardOK, TalksOK, WorkOK, OneBusyPerWorker, LessBusy, Quiet, TalksQuiet, WaitsGrow, RegistryOK, OneSessionPerAgent;
    hide UpsertTask, UpsertFails, Touch, ReplyFuture, TargetRefusal, PutMessage, IsTalk;
    WindsReflexive(s);
    PutOnFreeTargetKeeps(cfg, s, env, FirstStatus(env), now);
    UpsertKeeps(s.board, env, MessageStatus.Queued, now);
    TouchKeeps(s.talks, env, FirstTalkStatus(env));
    ReplyFutureKeeps(s.waits, env.correlation);
  }

  lemma EnqueueKeeps(cfg: Config, s: State, env: Envelope, createWaiter: bool, now: int)
    requires Inv(s)
    ensures var n := Enqueue(cfg, s, env, createWaiter, now).state;
            && Inv(n) && Quiet(s.board, n.board) && TalksQuiet(s.talks, n.talks) && WaitsGrow(s.waits, n.waits) && n.registry == s.registry
  {
    hide Inv, Quiet, TalksQuiet, WaitsGrow, LessBusy, Queue, TargetRefusal, ConversationRefusal;
    WindsReflexive(s);
    if Refusal(cfg, s, env).None? {
      QueueKeeps(cfg, s, env, createWaiter, now);
    }
  }

  // ---------------------------------------------------------------------
  // Job leases
  // ---------------------------------------------------------------------

  /**
   * What one operation may do to the job under a key: a finished job keeps its status; a lease keeps its
   * epoch and holder until the job finishes, unless the operation reclaims it, which takes an expired
   * lease to the next epoch; the first lease has epoch 1.
   */
  ghost predicate JobStep(b: Board, n: Board, key: Id, reclaimed: bool, now: int) {
    && (key in b.jobs ==>
          && key in n.jobs
          && (IsTerminal(b.jobs[key].status) ==> n.jobs[key].status == b.jobs[key].status && n.jobs[key].lease.None?))
    && match (LeaseAt(b, key), LeaseAt(n, key))
       case (Some(l), Some(m)) =>
         if reclaimed then m.epoch == l.epoch + 1 && now >= l.expiresAt else m.epoch == l.epoch && m.holder == l.holder
       case (Some(_), None) => !reclaimed && IsTerminal(n.jobs[key].status)
       case (None, Some(m)) => !reclaimed && m.epoch == 1
       case (None, None) => !reclaimed
  }

  lemma QuietIsJobStep(b: Board, n: Board, key: Id, now: int)
    requires Quiet(b, n) && BoardOK(n)
    ensures JobStep(b, n, key, false, now)
  {
    hide Key;
  }

  lemma AfterSweepJobStep(a: Board, b: Board, c: Board, key: Id, reclaimed: bool, now: int)
    requires Quiet(a, b) && OnlyEndsJobs(a, b) && BoardOK(b) && JobStep(b, c, key, reclaimed, now)
    ensures JobStep(a, c, key, reclaimed, now)
  {
    hide Key;
  }

  /** Whether this operation, on a swept state, moves the job under `key` to a new epoch. */
  ghost predicate Reclaims(s: State, op: Op, now: int, key: Id) {
    && op.DoReclaimJob?
    && var outcome := ReclaimJob(s, op.task, op.holder, op.scope, now).outcome;
       outcome.LeaseReclaimed? && outcome.reclaimed && FindJob(s.board, op.task, op.scope) == Some(key)
  }

  lemma StoreLeaseKeeps(s: State, key: Id, status: JobStatus, lease: Lease)
    requires Inv(s) && key in s.board.jobs && (status.Delivered? || status.Running?) && lease.epoch >= 1
    ensures var n := StoreLease(s, key, status, lease);
            && Inv(n) && n == s.(board := n.board)
            && LeaseAt(n.board, key) == Some(lease) && key in n.board.jobs && n.board.jobs[key].status == status
            && (forall k :: k != key ==> LeaseAt(n.board, k) == LeaseAt(s.board, k))
            && (forall k :: k in n.board.jobs <==> k in s.board.jobs)
            && (forall k :: k in s.board.jobs && k != key ==> n.board.jobs[k] == s.board.jobs[k])
  {
    hide WaitsOK, TalksOK, WorkOK, OneBusyPerWorker, RegistryOK, OneSessionPerAgent, Key;
  }

  lemma FoundJobIsStored(b: Board, task: Id, scope: Option<Id>)
    ensures FindJob(b, task, scope).Some? ==> FindJob(b, task, scope).value in b.jobs
    ensures FindJob(b, task, scope).Some? ==> IsJobFor(b, task, scope, FindJob(b, task, scope).value)
  {
  }

  lemma HeartbeatJobKeeps(s: State, task: Id, holder: Id, epoch: int, scope: Option<Id>, heartbeatMs: int, now: int, key: Id)
    requires Inv(s)
    ensures var e := HeartbeatJob(s, task, holder, epoch, scope, heartbeatMs, now);
            Inv(e.state) && e.state == s.(board := e.state.board) && JobStep(s.board, e.state.board, key, false, now)
  {
    hide Inv, FindJob, StoreLease, Renew;
    JobsAreShaped(s);
    FoundJobIsStored(s.board, task, scope);
    var found := FindJob(s.board, task, scope);
    if found.Some? && s.board.jobs[found.value].lease.Some? {
      var lease := s.board.jobs[found.value].lease.value;
      RenewKeepsHolder(lease, heartbeatMs, now);
      StoreLeaseKeeps(s, found.value, s.board.jobs[found.value].status, Renew(lease, heartbeatMs, now));
    }
  }

  lemma RenewKeepsHolder(lease: Lease, heartbeatMs: int, now: int)
    ensures Renew(lease, heartbeatMs, now).holder == lease.holder && Renew(lease, heartbeatMs, now).epoch == lease.epoch
    ensures Renew(lease, heartbeatMs, now).expiresAt > now
  {
  }

  lemma JobsAreShaped(s: State)
    requires Inv(s)
    ensures forall k :: k in s.board.jobs ==> JobShape(s.board.jobs[k])
  {
    hide WaitsOK, TalksOK, WorkOK, OneBusyPerWorker, RegistryOK, OneSessionPerAgent, Key;
  }

  lemma ReclaimJobKeeps(s: State, task: Id, holder: Id, scope: Option<Id>, now: int, key: Id)
    requires Inv(s)
    ensures var e := ReclaimJob(s, task, holder, scope, now);
            && Inv(e.state) && e.state == s.(board := e.state.board)
            && JobStep(s.board, e.state.board, key, Reclaims(s, DoReclaimJob(task, holder, scope), now, key), now)
  {
    hide Inv, FindJob, StoreLease, Reclaim;
    JobsAreShaped(s);
    FoundJobIsStored(s.board, task, scope);
    var found := FindJob(s.board, task, scope);
    if found.Some? && s.board.jobs[found.value].lease.Some? {
      var lease := s.board.jobs[found.value].lease.value;
      ReclaimRaisesEpoch(lease, holder, now);
      StoreLeaseKeeps(s, found.value, JobStatus.Running, Reclaim(lease, holder, now));
    }
  }

  lemma ReclaimRaisesEpoch(lease: Lease, holder: Id, now: int)
    ensures Reclaim(lease, holder, now).holder == holder && Reclaim(lease, holder, now).epoch == lease.epoch + 1
    ensures Reclaim(lease, holder, now).expiresAt > now
  {
  }

  // ---------------------------------------------------------------------
  // Any operation
  // ---------------------------------------------------------------------

  predicate ChangesSessions(op: Op) {
    op.DoAcquire? || op.DoHeartbeatSession? || op.DoReleaseSession? || op.DoExpireSessions?
  }

  lemma WindingActKeeps(cfg: Config, s: State, op: Op, now: int)
    requires Inv(s) && !op.DoEnqueue? && !op.DoHeartbeatJob? && !op.DoReclaimJob?
    ensures var n := Act(cfg, s, op, now).state; Inv(n) && Winds(s, n) && (!ChangesSessions(op) ==> n.registry == s.registry)
  {
    hide Inv, Winds;
    hide Acquire, HeartbeatSession, ReleaseSession, ExpireSessions, StaleLeases, Deliver, SaveReply, UpdateStatus, RecordActivity, CancelWork;
    hide CloseConversation, TranscriptFence, RecordTelemetry, PrepareTaskWait, CleanupTaskWaiter, PrepareReplyWait, AbandonWait, TimeoutReply;
    hide CleanupReplyWaiter;
    WindsReflexive(s);
    match op {
      case DoAcquire(c) => AcquireKeeps(cfg, s, c, now);
      case DoHeartbeatSession(lease, scope, worker) => HeartbeatSessionKeeps(s, lease, scope, worker, now);
      case DoReleaseSession(lease, scope) => ReleaseSessionKeeps(s, lease, scope, now);
      case DoExpireSessions => ExpireSessionsWinds(cfg, s, now);
      case DoDeliver(agent, scope, lease, env) => DeliverKeeps(s, agent, scope, lease, env, now);
      case DoSaveReply(message, env, claim, lease) => SaveReplyKeeps(s, message, env, claim, lease, now);
      case DoUpdateStatus(message, status, lease) => UpdateStatusKeeps(s, message, status, lease, now);
      case DoRecordActivity(activity) => RecordActivityKeeps(s, activity, now);
      case DoCancelWork(item, scope) => CancelWorkKeeps(s, item, scope, now);
      case DoCloseConversation(conversation, env) => CloseConversationKeeps(s, conversation, env);
      case DoAppendTranscript(_, _, _, _, _) => FenceKeepsState(s, op);
      case DoRecordTelemetry(_, _, _, _, _, _) => FenceKeepsState(s, op); TelemetryIsApart(s, Act(cfg, s, op, now).state.telemetry);
      case DoPrepareTaskWait(task, scope) => PrepareTaskWaitKeeps(s, task, scope);
      case DoPrepareReplyWait(correlation) => PrepareReplyWaitKeeps(s, correlation);
      case DoTimeoutReply(correlation) => TimeoutReplyKeeps(s, correlation, now);
      case DoObserve =>
      case _ => WaitingKeeps(cfg, s, op, now);
    }
  }

  lemma TelemetryIsApart(s: State, t: map<Id, Telemetry>)
    requires Inv(s)
    ensures Inv(s.(telemetry := t)) && Winds(s, s.(telemetry := t))
  {
    hide WaitsOK, BoardOK, TalksOK, RegistryOK, OneSessionPerAgent, WorkOK, OneBusyPerWorker, LessBusy, Quiet, TalksQuiet, WaitsGrow;
    WindsReflexive(s);
  }

  lemma ExpireSessionsWinds(cfg: Config, s: State, now: int)
    requires Inv(s)
    ensures var n := ExpireSessions(cfg, s, s.registry.order, now); Inv(n) && Winds(s, n) && (Covered(s) ==> Covered(n))
  {
    hide Inv, Winds, Covered, EndsSettled, OnlyEndsJobs;
    ExpireSessionsKeeps(cfg, s, s.registry.order, now);
  }

  /** The parts of the state's history every operation respects. */
  ghost predicate Proceeds(s: State, n: State, key: Id, reclaimed: bool, now: int) {
    JobStep(s.board, n.board, key, reclaimed, now) && TalksQuiet(s.talks, n.talks) && WaitsGrow(s.waits, n.waits)
  }

  lemma WindsProceeds(s: State, n: State, key: Id, now: int)
    requires Winds(s, n) && Inv(n)
    ensures Proceeds(s, n, key, false, now)
  {
    hide LessBusy, TalksQuiet, WaitsGrow, Quiet, WaitsOK, BoardOK, TalksOK, RegistryOK, OneSessionPerAgent, WorkOK, OneBusyPerWorker, JobStep;
    QuietIsJobStep(s.board, n.board, key, now);
  }

  lemma ActKeeps(cfg: Config, s: State, op: Op, now: int, key: Id)
    requires Inv(s)
    ensures var n := Act(cfg, s, op, now).state; Inv(n) && Proceeds(s, n, key, Reclaims(s, op, now, key), now)
  {
    hide Inv, Enqueue, HeartbeatJob, ReclaimJob, JobStep, Quiet, TalksQuiet, WaitsGrow;
    var n := Act(cfg, s, op, now).state;
    WindsReflexive(s);
    WindsProceeds(s, s, key, now);
    match op {
      case DoEnqueue(env, createWaiter) =>
        EnqueueKeeps(cfg, s, env, createWaiter, now);
        BoardIsOK(n);
        QuietIsJobStep(s.board, n.board, key, now);
      case DoHeartbeatJob(task, holder, epoch, scope, heartbeatMs) =>
        HeartbeatJobKeeps(s, task, holder, epoch, scope, heartbeatMs, now, key);
      case DoReclaimJob(task, holder, scope) =>
        ReclaimJobKeeps(s, task, holder, scope, now, key);
      case _ =>
        hide Act;
        WindingActKeeps(cfg, s, op, now);
        WindsProceeds(s, n, key, now);
    }
  }

  lemma BoardIsOK(s: State)
    requires Inv(s)
    ensures BoardOK(s.board)
  {
  }

  /** Sweep and operation together. */
  lemma ApplyKeeps(cfg: Config, s: State, op: Op, now: int, key: Id)
    requires Inv(s)
    ensures var n := Apply(cfg, s, op, now).state;
            Inv(n) && Proceeds(s, n, key, Reclaims(Swept(cfg, s, op, now), op, now, key), now)
  {
    hide Inv, Act, Sweep, JobStep, Quiet, TalksQuiet, WaitsGrow, LessBusy, EndsSettled, OnlyEndsJobs, Reclaims;
    var swept := Swept(cfg, s, op, now);
    if Sweeps(op) {
      SweepIsComplete(cfg, s, now);
    } else {
      SettlingReflexive(s);
    }
    assert Settling(s, swept);
    ActKeeps(cfg, swept, op, now, key);
    BoardIsOK(swept);
    AfterSweepJobStep(s.board, swept.board, Apply(cfg, s, op, now).state.board, key, Reclaims(swept, op, now, key), now);
    TalksQuietTransitive(s.talks, swept.talks, Apply(cfg, s, op, now).state.talks);
    WaitsGrowTransitive(s.waits, swept.waits, Apply(cfg, s, op, now).state.waits);
  }

  lemma TalksQuietTransitive(a: Talks, b: Talks, c: Talks)
    requires TalksQuiet(a, b) && TalksQuiet(b, c)
    ensures TalksQuiet(a, c)
  {
  }

  lemma WaitsGrowTransitive(a: Waits, b: Waits, c: Waits)
    requires WaitsGrow(a, b) && WaitsGrow(b, c)
    ensures WaitsGrow(a, c)
  {
  }
}

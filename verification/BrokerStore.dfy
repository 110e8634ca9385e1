/** The broker's store as the object it is: dictionaries updated in place, refining the operations of BrokerOps. */
module BrokerStore {
  import opened Basics
  import opened Jobs
  import opened BrokerState
  import opened BrokerOps
  import opened BrokerInvariants
  import opened BrokerSteps
  import opened BrokerActs

  /** A set with one element has it as its only one. */
  lemma OnlyMember<T>(s: set<T>, x: T)
    requires |s| == 1 && x in s
    ensures forall y :: y in s ==> y == x
  {
    assert |s - {x}| == 0;
    forall y | y in s
      ensures y == x
    {
      assert y in s - {x} || y == x;
    }
  }

  lemma UniqueMember<T>(s: set<T>, x: T)
    requires x in s && forall y :: y in s ==> y == x
    ensures |s| == 1
  {
    assert s == {x};
  }

  class MemoryMessageStore {
    const cfg: Config
    var messageOrder: seq<Id>
    var activeMessages: map<Id, Message>
    var taskJobs: map<Id, Job>
    var tasks: map<Id, Projection>
    var conversations: map<Id, Conversation>
    var talkJobs: map<Id, Job>
    var resultsByTask: map<Id, TaskResult>
    var pendingReplies: map<Id, nat>
    var taskWaiters: map<Id, seq<nat>>
    var futures: seq<Future>
    var sessionOrder: seq<Id>
    var sessions: map<Id, Session>
    var telemetryByTask: map<Id, Telemetry>

    function WorkView(): Work
      reads this`messageOrder, this`activeMessages
    {
      Work(messageOrder, activeMessages)
    }

    function BoardView(): Board
      reads this`taskJobs, this`tasks
    {
      Board(taskJobs, tasks)
    }

    function TalksView(): Talks
      reads this`conversations, this`talkJobs
    {
      Talks(conversations, talkJobs)
    }

    function WaitsView(): Waits
      reads this`resultsByTask, this`pendingReplies, this`taskWaiters, this`futures
    {
      Waits(resultsByTask, pendingReplies, taskWaiters, futures)
    }

    function View(): State
      reads this
    {
      State(WorkView(), BoardView(), TalksView(), WaitsView(), Registry(sessionOrder, sessions), telemetryByTask)
    }

    ghost predicate Valid()
      reads this
    {
      Inv(View())
    }

    constructor (cfg: Config)
      ensures this.cfg == cfg && View() == EMPTY && Valid()
    {
      this.cfg := cfg;
      messageOrder, activeMessages, taskJobs, tasks := [], map[], map[], map[];
      conversations, talkJobs, resultsByTask := map[], map[], map[];
      pendingReplies, taskWaiters, futures := map[], map[], [];
      sessionOrder, sessions, telemetryByTask := [], map[], map[];
    }

    // -------------------------------------------------------------------
    // Job projector
    // -------------------------------------------------------------------

    /** The job a message speaks about; a new one is stored before it moves. */
    method TaskJobForMessageLocked(env: Envelope) returns (job: Option<Job>)
      modifies this`taskJobs
      ensures job == JobFor(old(BoardView()), env)
      ensures taskJobs == if job.Some? then old(taskJobs)[Key(env.project, env.task) := job.value] else old(taskJobs)
    {
      if env.task == [] {
        return None;
      }
      var key := Key(env.project, env.task);
      if key in taskJobs {
        assert taskJobs == taskJobs[key := taskJobs[key]];
        return Some(taskJobs[key]);
      }
      if key !in tasks && !env.kind.TaskMessage? {
        return None;
      }
      var created := Job(env.task, env.project, JobStatus.Created, None);
      taskJobs := taskJobs[key := created];
      job := Some(created);
    }

    /** Move the message's job; an illegal move raises and leaves the stored jobs as they were. */
    method TransitionTaskJobLocked(env: Envelope, status: MessageStatus) returns (r: Result<Option<Job>, Error>)
      modifies this`taskJobs
      ensures match JobFor(old(BoardView()), env)
              case None => r == Ok(None) && taskJobs == old(taskJobs)
              case Some(job) =>
                match Transition(job, status)
                case Err(_) => r == Err(IllegalTransition) && taskJobs == old(taskJobs)
                case Ok(moved) => r == Ok(Some(moved)) && taskJobs == old(taskJobs)[Key(env.project, env.task) := moved]
    {
      hide Transition, Key;
      var found := TaskJobForMessageLocked(env);
      if found.None? {
        return Ok(None);
      }
      var moved := TransitionTaskJob(found.value, status);
      if moved.Err? {
        NewJobsMoveAnywhere(found.value, status);
        assert taskJobs == old(taskJobs);
        return Err(IllegalTransition);
      }
      taskJobs := taskJobs[Key(env.project, env.task) := moved.value];
      r := Ok(Some(moved.value));
    }

    /** Move the message's job and store its projection; work that is dispatched gets a lease. */
    method UpsertTaskLocked(env: Envelope, status: MessageStatus, now: int) returns (r: Result<Option<Job>, Error>)
      modifies this`taskJobs, this`tasks
      ensures BoardView() == UpsertTask(old(BoardView()), env, status, now)
      ensures r.Err? <==> UpsertFails(old(BoardView()), env, status)
      ensures r.Err? ==> r.error == IllegalTransition
      ensures r.Ok? && r.value.Some? ==>
                Key(env.project, env.task) in taskJobs && r.value.value == taskJobs[Key(env.project, env.task)]
      ensures r.Ok? && r.value.None? ==> JobFor(old(BoardView()), env).None?
    {
      hide Transition, Key, FreshLease, StoreJob, Dispatched;
      ghost var before := BoardView();
      r := TransitionTaskJobLocked(env, status);
      if r.Err? || r.value.None? {
        return;
      }
      assert taskJobs == before.jobs[Key(env.project, env.task) := r.value.value];
      var job := DispatchLocked(env, r.value.value, before, now);
      r := Ok(Some(job));
    }

    /** A delivered job gets its lease, then the job and its projection are stored. */
    method DispatchLocked(env: Envelope, moved: Job, ghost before: Board, now: int) returns (job: Job)
      requires BoardView() == before.(jobs := before.jobs[Key(env.project, env.task) := moved])
      modifies this`taskJobs, this`tasks
      ensures job == Dispatched(moved, env.target, now)
      ensures BoardView() == StoreJob(before, Key(env.project, env.task), job)
      ensures Key(env.project, env.task) in taskJobs && taskJobs[Key(env.project, env.task)] == job
    {
      hide Key, FreshLease;
      job := moved;
      if job.status.Delivered? && job.lease.None? && env.target != [] {
        job := job.(lease := Some(FreshLease(env.target, DEFAULT_HEARTBEAT_MS, 1, now)));
      }
      StoreJobLocked(Key(env.project, env.task), job);
    }

    method StoreJobLocked(key: Id, job: Job)
      modifies this`taskJobs, this`tasks
      ensures BoardView() == StoreJob(old(BoardView()), key, job)
    {
      taskJobs := taskJobs[key := job];
      tasks := tasks[key := ProjectionOf(job)];
    }

    lemma NewJobsMoveAnywhere(job: Job, status: MessageStatus)
      ensures job.status.Created? ==> Transition(job, status).Ok?
    {
    }

    method TouchConversationLocked(env: Envelope, status: Option<ConversationStatus>)
      requires TalksOK(TalksView())
      modifies this`conversations, this`talkJobs
      ensures TalksView() == Touch(old(TalksView()), env, status) && TalksOK(TalksView())
    {
      TouchKeeps(TalksView(), env, status);
      if env.conversation == [] || !IsTalk(env.kind) {
        return;
      }
      var key := Key(env.project, env.conversation);
      var job := if key in talkJobs then talkJobs[key] else Job(env.conversation, env.project, JobStatus.Created, None);
      var base;
      if key in conversations {
        base := conversations[key];
      } else {
        base := Conversation(env.conversation, env.project, Present(env.sender) + Present(env.target),
                             if env.kind.ChatClose? then ConversationStatus.Closed else Open,
                             env.turn, env.maxTurns, env.sender, env.target);
      }
      var nextStatus := if status.Some? then status.value else base.status;
      if env.kind.ChatClose? || (env.kind.ChatReply? && env.turn >= env.maxTurns) {
        nextStatus := ConversationStatus.Closed;
      }
      var participants := base.participants;
      if env.sender != [] && env.sender !in participants {
        participants := participants + [env.sender];
      }
      if env.target != [] && env.target !in participants {
        participants := participants + [env.target];
      }
      var next := Conversation(base.id, base.project, participants, nextStatus, env.turn, env.maxTurns,
                               if base.sender != [] then base.sender else env.sender,
                               if base.target != [] then base.target else env.target);
      assert next == NextConversation(TalksView(), env, status);
      var moved := TransitionTalkJob(job, next.status);
      talkJobs := talkJobs[key := moved.value];
      conversations := conversations[key := next];
    }

    // -------------------------------------------------------------------
    // Results and waiting callers
    // -------------------------------------------------------------------

    method ResolveTaskWaitersLocked(key: Id, r: TaskResult)
      modifies this`taskWaiters, this`futures
      ensures WaitsView() == ResolveWaiters(old(WaitsView()), key, r)
    {
      var waiters := if key in taskWaiters then taskWaiters[key] else [];
      taskWaiters := taskWaiters - {key};
      for i := 0 to |waiters|
        invariant taskWaiters == old(taskWaiters) - {key}
        invariant futures == CompleteAll(old(futures), waiters[..i], GotResult(r))
      {
        assert waiters[..i + 1][..i] == waiters[..i];
        var f := waiters[i];
        if f < |futures| && futures[f].state.Pending? {
          futures := futures[f := futures[f].(state := GotResult(r))];
        }
      }
      assert waiters[..|waiters|] == waiters;
    }

    method StoreTaskResultLocked(r: TaskResult)
      modifies this`resultsByTask, this`taskWaiters, this`futures
      ensures WaitsView() == StoreResult(old(WaitsView()), r)
    {
      var key := Key(r.project, r.task);
      resultsByTask := resultsByTask[key := r];
      ResolveTaskWaitersLocked(key, r);
      ResolveTaskWaitersLocked(r.task, r);
    }

    method ResolveReplyLocked(correlation: Id, state: FutureState)
      modifies this`futures
      ensures WaitsView() == ResolveReply(old(WaitsView()), correlation, state)
    {
      if correlation in pendingReplies {
        var f := pendingReplies[correlation];
        if f < |futures| && futures[f].state.Pending? {
          futures := futures[f := futures[f].(state := state)];
        }
      }
    }

    method SetStatusLocked(id: Id, status: MessageStatus)
      requires id in activeMessages
      modifies this`activeMessages
      ensures WorkView() == SetStatus(old(WorkView()), id, status)
    {
      activeMessages := activeMessages[id := activeMessages[id].(status := status)];
    }

    method SettleWaitsLocked(env: Envelope, status: MessageStatus, reply: FutureState)
      modifies this`resultsByTask, this`taskWaiters, this`futures
      ensures WaitsView() == SettleWaits(old(WaitsView()), env, status, reply)
    {
      hide StoreResult, ResolveReply;
      if env.task != [] {
        StoreTaskResultLocked(TaskResult(status, env.project, env.task));
      }
      ResolveReplyLocked(env.correlation, reply);
    }

    /** The shared ending of cancelled and timed-out work. */
    method SettleLocked(id: Id, status: MessageStatus, now: int)
      requires id in activeMessages && TalksOK(TalksView())
      modifies this`activeMessages, this`taskJobs, this`tasks, this`conversations, this`talkJobs,
               this`resultsByTask, this`taskWaiters, this`futures
      ensures View() == Settle(old(View()), id, status, now) && TalksOK(TalksView())
    {
      hide SettleWaits, UpsertTask, Touch, UpsertFails, Key, JobFor, TalksOK, TalkStatusOf;
      var env := activeMessages[id].env;
      SetStatusLocked(id, status);
      var r := UpsertTaskLocked(env, status, now);
      TouchConversationLocked(env, Some(TalkStatusOf(status)));
      SettleWaitsLocked(env, status, GotBlocker(status));
    }

    // -------------------------------------------------------------------
    // Sweep
    // -------------------------------------------------------------------

    method SettleOneForOfflineAgentLocked(id: Id, agent: Id, project: Id, now: int) returns (settled: seq<Id>)
      requires TalksOK(TalksView())
      modifies this`activeMessages, this`taskJobs, this`tasks, this`conversations, this`talkJobs,
               this`resultsByTask, this`taskWaiters, this`futures
      ensures Settlement(View(), settled) == SettleOne(old(View()), id, agent, project, now) && TalksOK(TalksView())
    {
      hide Settle, SettledIds, TalksOK;
      settled := [];
      if id !in activeMessages {
        return;
      }
      var stored := activeMessages[id];
      if stored.env.project != project {
        return;
      }
      if stored.env.sender != agent && stored.env.target != agent {
        return;
      }
      if !IsBusy(stored.status) {
        return;
      }
      SettleLocked(id, MessageStatus.Cancelled, now);
      settled := SettledIds(stored.env);
    }

    method SettleWorkForOfflineAgentLocked(agent: Id, project: Id, now: int) returns (settled: seq<Id>)
      requires TalksOK(TalksView())
      modifies this`activeMessages, this`taskJobs, this`tasks, this`conversations, this`talkJobs,
               this`resultsByTask, this`taskWaiters, this`futures
      ensures Settlement(View(), settled) == SettleAgent(old(View()), old(messageOrder), agent, project, now)
      ensures TalksOK(TalksView())
    {
      hide SettleOne, TalksOK;
      ghost var start := View();
      settled := [];
      var ids := messageOrder;
      for i := 0 to |ids|
        invariant TalksOK(TalksView())
        invariant Settlement(View(), settled) == SettleAgent(start, ids[..i], agent, project, now)
      {
        assert ids[..i + 1][..i] == ids[..i];
        var items := SettleOneForOfflineAgentLocked(ids[i], agent, project, now);
        settled := settled + items;
      }
      assert ids[..|ids|] == ids;
    }

    /** End one session: settle its agent's work first, then store the ended session. */
    method EndSessionLocked(lease: Id, status: SessionStatus, now: int) returns (settled: seq<Id>)
      requires lease in sessions && TalksOK(TalksView())
      modifies this`activeMessages, this`taskJobs, this`tasks, this`conversations, this`talkJobs,
               this`resultsByTask, this`taskWaiters, this`futures, this`sessions
      ensures View() == EndSession(old(View()), lease, status, now) && TalksOK(TalksView())
      ensures settled == SettleAgent(old(View()), old(messageOrder), old(sessions[lease].agent), old(sessions[lease].project), now).items
    {
      hide SettleAgent, TalksOK;
      var session := sessions[lease];
      settled := SettleWorkForOfflineAgentLocked(session.agent, session.project, now);
      sessions := sessions[lease := session.(status := status, settled := settled)];
    }

    method ExpireSessionsLocked(now: int) returns (expired: seq<Id>)
      requires TalksOK(TalksView())
      requires forall i, j :: 0 <= i < j < |sessionOrder| ==> sessionOrder[i] != sessionOrder[j]
      modifies this`activeMessages, this`taskJobs, this`tasks, this`conversations, this`talkJobs,
               this`resultsByTask, this`taskWaiters, this`futures, this`sessions
      ensures View() == ExpireSessions(cfg, old(View()), old(sessionOrder), now) && TalksOK(TalksView())
      ensures expired == StaleLeases(cfg, old(View().registry), old(sessionOrder), now)
    {
      hide EndSession, SettleAgent, TalksOK, Grace;
      ghost var start := View();
      expired := [];
      var leases := sessionOrder;
      for i := 0 to |leases|
        invariant TalksOK(TalksView())
        invariant View() == ExpireSessions(cfg, start, leases[..i], now)
        invariant expired == StaleLeases(cfg, start.registry, leases[..i], now)
      {
        assert leases[..i + 1][..i] == leases[..i];
        var lease := leases[i];
        ExpireSessionsDecides(cfg, start, leases[..i], now, lease);
        if lease !in sessions {
          continue;
        }
        if !sessions[lease].status.Active? {
          continue;
        }
        if now - sessions[lease].lastSeen < Grace(cfg, sessions[lease]) {
          continue;
        }
        var settled := EndSessionLocked(lease, Expired, now);
        expired := expired + [lease];
      }
      assert leases[..|leases|] == leases;
    }

    method ExpireTimedOutMessagesLocked(now: int)
      requires TalksOK(TalksView())
      requires forall i, j :: 0 <= i < j < |sessionOrder| ==> sessionOrder[i] != sessionOrder[j]
      modifies this`activeMessages, this`taskJobs, this`tasks, this`conversations, this`talkJobs,
               this`resultsByTask, this`taskWaiters, this`futures, this`sessions
      ensures View() == Sweep(cfg, old(View()), now) && TalksOK(TalksView())
    {
      hide Settle, ExpireSessions, TalksOK;
      var expired := ExpireSessionsLocked(now);
      ghost var start := View();
      var ids := messageOrder;
      for i := 0 to |ids|
        invariant TalksOK(TalksView())
        invariant View() == TimeoutMessages(start, ids[..i], now)
      {
        assert ids[..i + 1][..i] == ids[..i];
        var id := ids[i];
        if id !in activeMessages {
          continue;
        }
        var stored := activeMessages[id];
        if !IsBusy(stored.status) {
          continue;
        }
        if stored.env.timeoutSeconds <= 0 {
          continue;
        }
        if now - stored.createdAt < 1000 * stored.env.timeoutSeconds {
          continue;
        }
        SettleLocked(id, MessageStatus.Timeout, now);
      }
      assert ids[..|ids|] == ids;
    }

    // -------------------------------------------------------------------
    // Sessions
    // -------------------------------------------------------------------

    method AcquireSessionLocked(c: AcquireCommand, now: int) returns (outcome: Outcome)
      requires RegistryOK(View().registry)
      modifies this`sessionOrder, this`sessions
      ensures Effect(View(), outcome) == Acquire(cfg, old(View()), c, now)
    {
      for i := 0 to |sessionOrder|
        invariant forall j :: 0 <= j < i ==> !Conflicts(sessions[sessionOrder[j]], c)
        invariant sessionOrder == old(sessionOrder) && sessions == old(sessions)
      {
        var active := sessions[sessionOrder[i]];
        if active.project != c.project || !active.status.Active? || active.lease == c.lease {
          continue;
        }
        if active.agent == c.agent || (c.worker != [] && active.worker == c.worker) {
          assert sessionOrder[i] in View().registry.byLease && Conflicts(sessions[sessionOrder[i]], c);
          return Raised(LeaseConflict);
        }
      }
      assert forall l :: l in View().registry.byLease ==> !Conflicts(View().registry.byLease[l], c) by {
        forall l | l in View().registry.byLease
          ensures !Conflicts(View().registry.byLease[l], c)
        {
          var j :| 0 <= j < |sessionOrder| && sessionOrder[j] == l;
        }
      }
      var grace := if c.graceSeconds != 0 then c.graceSeconds else cfg.graceSeconds;
      if c.lease !in sessions {
        sessionOrder := sessionOrder + [c.lease];
      }
      sessions := sessions[c.lease := Session(c.lease, c.project, c.agent, c.worker, Active, now, grace, [])];
      outcome := Accepted;
    }

    method HeartbeatSessionLocked(lease: Id, scope: Option<Id>, worker: Id, now: int) returns (outcome: Outcome)
      modifies this`sessions
      ensures Effect(View(), outcome) == HeartbeatSession(old(View()), lease, scope, worker, now)
    {
      if lease !in sessions || !InProject(sessions[lease], scope) {
        return Raised(NotFound);
      }
      var updated := sessions[lease];
      if !updated.status.Active? {
        return Accepted;
      }
      updated := updated.(lastSeen := now);
      if worker != [] {
        updated := updated.(worker := worker);
      }
      sessions := sessions[lease := updated];
      outcome := Accepted;
    }

    method ReleaseSessionLocked(lease: Id, scope: Option<Id>, now: int) returns (outcome: Outcome)
      requires TalksOK(TalksView())
      modifies this`activeMessages, this`taskJobs, this`tasks, this`conversations, this`talkJobs,
               this`resultsByTask, this`taskWaiters, this`futures, this`sessions
      ensures Effect(View(), outcome) == ReleaseSession(old(View()), lease, scope, now)
    {
      hide EndSession, SettleAgent, TalksOK;
      if lease !in sessions || !InProject(sessions[lease], scope) {
        return Raised(NotFound);
      }
      if !sessions[lease].status.Active? {
        return Ended(sessions[lease].settled);
      }
      var settled := EndSessionLocked(lease, Released, now);
      outcome := Ended(settled);
    }

    // -------------------------------------------------------------------
    // Work queue
    // -------------------------------------------------------------------

    method AssertWorkerTargetFreeLocked(env: Envelope) returns (refusal: Option<Error>)
      requires WorkOK(WorkView())
      ensures refusal == TargetRefusal(cfg, View(), env)
    {
      if !IsWorkerBound(env.kind) {
        return None;
      }
      if cfg.requirePeers && env.target != [] && !HasActiveSession(View().registry, env.target, Some(env.project)) {
        return Some(PeerOffline);
      }
      hide HasActiveSession;
      for i := 0 to |messageOrder|
        invariant forall j :: 0 <= j < i ==> !BlocksTarget(activeMessages[messageOrder[j]], env)
      {
        var active := activeMessages[messageOrder[i]];
        if active.env.project != env.project || active.env.target != env.target || !IsBusy(active.status) {
          continue;
        }
        assert messageOrder[i] in View().work.byId && BlocksTarget(View().work.byId[messageOrder[i]], env);
        return Some(Busy);
      }
      assert forall id :: id in View().work.byId ==> !BlocksTarget(View().work.byId[id], env) by {
        forall id | id in View().work.byId
          ensures !BlocksTarget(View().work.byId[id], env)
        {
          var j :| 0 <= j < |messageOrder| && messageOrder[j] == id;
        }
      }
      if env.kind.ChatTurn? || env.kind.ChatClose? {
        return None;
      }
      var keys := conversations.Keys;
      while keys != {}
        invariant keys <= conversations.Keys
        invariant forall k :: k in conversations && k !in keys ==> !ConversationBlocks(conversations[k], env)
        decreases |keys|
      {
        var key :| key in keys;
        keys := keys - {key};
        var record := conversations[key];
        if record.project != env.project || !record.status.Open? || env.target !in record.participants || record.id == env.conversation {
          continue;
        }
        assert key in View().talks.conversations && ConversationBlocks(View().talks.conversations[key], env);
        return Some(Busy);
      }
      refusal := None;
    }

    /** Project a queued message onto its conversation or its task; an illegal task transition fails. */
    method ProjectQueuedLocked(env: Envelope, now: int) returns (failed: bool)
      requires TalksOK(TalksView())
      modifies this`taskJobs, this`tasks, this`conversations, this`talkJobs
      ensures failed == (!IsTalk(env.kind) && UpsertFails(old(BoardView()), env, MessageStatus.Queued))
      ensures BoardView() == if IsTalk(env.kind) then old(BoardView()) else UpsertTask(old(BoardView()), env, MessageStatus.Queued, now)
      ensures TalksView() == Touch(old(TalksView()), env, FirstTalkStatus(env))
    {
      hide UpsertTask, UpsertFails, TalksOK, JobFor, Key;
      failed := false;
      if env.kind.ChatClose? {
        TouchConversationLocked(env, Some(ConversationStatus.Closed));
      } else if IsTalk(env.kind) {
        TouchConversationLocked(env, None);
      } else {
        var r := UpsertTaskLocked(env, MessageStatus.Queued, now);
        failed := r.Err?;
      }
    }

    method EnqueueMessageLocked(env: Envelope, createWaiter: bool, now: int) returns (outcome: Outcome)
      requires WorkOK(WorkView()) && TalksOK(TalksView())
      modifies this`messageOrder, this`activeMessages, this`taskJobs, this`tasks, this`conversations, this`talkJobs,
               this`pendingReplies, this`futures
      ensures Effect(View(), outcome) == Enqueue(cfg, old(View()), env, createWaiter, now)
    {
      hide TargetRefusal, ConversationRefusal, WorkOK, TalksOK, Queue;
      var closed := ConversationRefusal(View(), env);
      if closed.Some? {
        return Raised(closed.value);
      }
      var refusal := AssertWorkerTargetFreeLocked(env);
      if refusal.Some? {
        return Raised(refusal.value);
      }
      var failed := QueueMessageLocked(env, createWaiter, now);
      outcome := if failed then Raised(IllegalTransition) else Accepted;
    }

    /** The message is stored before its projections; an illegal task transition fails after that. */
    method QueueMessageLocked(env: Envelope, createWaiter: bool, now: int) returns (failed: bool)
      requires TalksOK(TalksView())
      modifies this`messageOrder, this`activeMessages, this`taskJobs, this`tasks, this`conversations, this`talkJobs,
               this`pendingReplies, this`futures
      ensures Progress(View(), failed) == Queue(old(View()), env, createWaiter, now)
    {
      hide Touch, UpsertTask, UpsertFails, TalksOK, JobFor, Key, ReplyFuture, PutMessage, FirstStatus, FirstTalkStatus, IsTalk;
      StoreMessageLocked(Message(env, FirstStatus(env), now));
      FailedUpsertChangesNothing(BoardView(), env, MessageStatus.Queued, now);
      OnlyTalksAreTouched(TalksView(), env, FirstTalkStatus(env));
      failed := ProjectQueuedLocked(env, now);
      if !failed {
        RegisterReplyWaiterLocked(env, createWaiter);
      }
    }

    method StoreMessageLocked(m: Message)
      modifies this`messageOrder, this`activeMessages
      ensures WorkView() == PutMessage(old(WorkView()), m)
    {
      if m.env.id !in activeMessages {
        messageOrder := messageOrder + [m.env.id];
      }
      activeMessages := activeMessages[m.env.id := m];
    }

    method RegisterReplyWaiterLocked(env: Envelope, createWaiter: bool)
      modifies this`pendingReplies, this`futures
      ensures WaitsView() ==
              if createWaiter && env.requiresReply then ReplyFuture(old(WaitsView()), env.correlation) else old(WaitsView())
    {
      if createWaiter && env.requiresReply {
        var f := ReplyFutureLocked(env.correlation);
      }
    }

    static lemma OnlyTalksAreTouched(t: Talks, env: Envelope, status: Option<ConversationStatus>)
      ensures !IsTalk(env.kind) ==> Touch(t, env, status) == t
    {
    }

    static lemma FailedUpsertChangesNothing(b: Board, env: Envelope, status: MessageStatus, now: int)
      ensures UpsertFails(b, env, status) ==> UpsertTask(b, env, status, now) == b
    {
    }

    method ReplyFutureLocked(correlation: Id) returns (f: nat)
      modifies this`pendingReplies, this`futures
      ensures WaitsView() == ReplyFuture(old(WaitsView()), correlation)
      ensures correlation in pendingReplies && f == pendingReplies[correlation]
    {
      if correlation !in pendingReplies {
        pendingReplies := pendingReplies[correlation := |futures|];
        futures := futures + [Future(ReplyWait(correlation), FutureState.Pending)];
      }
      f := pendingReplies[correlation];
    }

    /** Project a stored message's new status onto its task or its conversation; the lease goes out with a delivery. */
    method ProjectStatusLocked(env: Envelope, status: MessageStatus, talk: Option<ConversationStatus>, now: int)
        returns (failed: bool, lease: Option<Lease>)
      requires TalksOK(TalksView())
      modifies this`taskJobs, this`tasks, this`conversations, this`talkJobs
      ensures var tasked := env.task != [] && env.kind.TaskMessage?;
              && failed == (tasked && UpsertFails(old(BoardView()), env, status))
              && BoardView() == (if tasked && !failed then UpsertTask(old(BoardView()), env, status, now) else old(BoardView()))
              && TalksView() == Touch(old(TalksView()), env, talk)
              && (!failed ==> lease == if tasked then LeaseAt(BoardView(), Key(env.project, env.task)) else None)
    {
      hide UpsertTask, UpsertFails, TalksOK, JobFor, Key, Touch;
      lease := None;
      if env.task != [] && env.kind.TaskMessage? {
        FailedUpsertChangesNothing(BoardView(), env, status, now);
        TaskMessagesHaveJobs(BoardView(), env);
        OnlyTalksAreTouched(TalksView(), env, talk);
        var r := UpsertTaskLocked(env, status, now);
        if r.Err? {
          return true, None;
        }
        return false, r.value.value.lease;
      }
      TouchConversationLocked(env, talk);
      failed := false;
    }

    method AdvanceLocked(id: Id, status: MessageStatus, talk: Option<ConversationStatus>, now: int) returns (failed: bool, lease: Option<Lease>)
      requires id in activeMessages && TalksOK(TalksView())
      modifies this`activeMessages, this`taskJobs, this`tasks, this`conversations, this`talkJobs
      ensures Progress(View(), failed) == Advanced(old(View()), id, status, talk, now)
      ensures var env := old(activeMessages[id].env);
              !failed ==> lease == if env.task != [] && env.kind.TaskMessage? then LeaseAt(BoardView(), Key(env.project, env.task)) else None
    {
      hide Touch, UpsertTask, UpsertFails, TalksOK, JobFor, Key;
      var env := activeMessages[id].env;
      SetStatusLocked(id, status);
      OnlyTalksAreTouched(TalksView(), env, talk);
      failed, lease := ProjectStatusLocked(env, status, talk, now);
    }

    method DeliverMessageLocked(agent: Id, scope: Option<Id>, lease: Id, item: Envelope, now: int) returns (outcome: Outcome)
      requires TalksOK(TalksView())
      modifies this`activeMessages, this`taskJobs, this`tasks, this`conversations, this`talkJobs
      ensures Effect(View(), outcome) == Deliver(old(View()), agent, scope, lease, item, now)
    {
      hide Advanced, TalksOK, Key, PollRefused;
      if PollRefused(View(), agent, scope, lease) {
        return Raised(LeaseConflict);
      }
      if item.id !in activeMessages {
        return Delivery(item.task, None);
      }
      if !IsBusy(activeMessages[item.id].status) {
        return Skipped;
      }
      var env := activeMessages[item.id].env;
      var failed, granted := AdvanceLocked(item.id, MessageStatus.Delivered, None, now);
      outcome := if failed then Raised(IllegalTransition) else Delivery(env.task, granted);
    }

    static lemma TaskMessagesHaveJobs(b: Board, env: Envelope)
      requires env.task != [] && env.kind.TaskMessage?
      ensures JobFor(b, env).Some?
    {
    }

    method SaveReplyLocked(messageId: Id, reply: Envelope, a: Assertion, sessionLease: Id, now: int) returns (outcome: Outcome)
      requires TalksOK(TalksView())
      modifies this`activeMessages, this`taskJobs, this`tasks, this`conversations, this`talkJobs,
               this`resultsByTask, this`taskWaiters, this`futures
      ensures Effect(View(), outcome) == SaveReply(old(View()), messageId, reply, a, sessionLease, now)
    {
      hide Replied, TalksOK, Key, HoldsLease, ReplyIsStale;
      if sessionLease != [] && !HoldsLease(View().registry, reply.sender, Some(reply.project), sessionLease) {
        return Raised(LeaseConflict);
      }
      if ReplyIsStale(BoardView(), reply, a) {
        return Raised(LeaseConflict);
      }
      if messageId in activeMessages && (activeMessages[messageId].status.Timeout? || activeMessages[messageId].status.Cancelled?) {
        return ReplyIgnored;
      }
      RecordReplyLocked(messageId, reply, now);
      outcome := Accepted;
    }

    method RecordReplyLocked(messageId: Id, reply: Envelope, now: int)
      requires TalksOK(TalksView())
      modifies this`activeMessages, this`taskJobs, this`tasks, this`conversations, this`talkJobs,
               this`resultsByTask, this`taskWaiters, this`futures
      ensures View() == Replied(old(View()), messageId, reply, now)
    {
      hide Touch, UpsertTask, SettleWaits, TalksOK, ReplyStatus, TalkStatusOf;
      var status := ReplyStatus(reply);
      MarkRepliedLocked(messageId, status);
      ProjectReplyLocked(reply, status, now);
      SettleWaitsLocked(reply, status, GotReply(reply.id));
    }

    method MarkRepliedLocked(messageId: Id, status: MessageStatus)
      modifies this`activeMessages
      ensures WorkView() == if messageId in old(activeMessages) then SetStatus(old(WorkView()), messageId, status) else old(WorkView())
    {
      if messageId in activeMessages {
        SetStatusLocked(messageId, status);
      }
    }

    method ProjectReplyLocked(reply: Envelope, status: MessageStatus, now: int)
      requires TalksOK(TalksView())
      modifies this`taskJobs, this`tasks, this`conversations, this`talkJobs
      ensures BoardView() == UpsertTask(old(BoardView()), reply, status, now)
      ensures TalksView() == Touch(old(TalksView()), reply, Some(TalkStatusOf(status)))
    {
      hide Touch, UpsertTask, UpsertFails, TalksOK, JobFor, Key, TalkStatusOf;
      var r := UpsertTaskLocked(reply, status, now);
      TouchConversationLocked(reply, Some(TalkStatusOf(status)));
    }

    method UpdateMessageStatusLocked(messageId: Id, status: MessageStatus, sessionLease: Id, now: int) returns (outcome: Outcome)
      requires TalksOK(TalksView())
      modifies this`activeMessages, this`taskJobs, this`tasks, this`conversations, this`talkJobs
      ensures Effect(View(), outcome) == UpdateStatus(old(View()), messageId, status, sessionLease, now)
    {
      hide Advanced, TalksOK, Key, HoldsLease, TalkStatusOf;
      if messageId !in activeMessages {
        return Raised(NotFound);
      }
      var stored := activeMessages[messageId];
      if sessionLease != [] && !HoldsLease(View().registry, stored.env.target, Some(stored.env.project), sessionLease) {
        return Raised(LeaseConflict);
      }
      if !IsBusy(stored.status) {
        return Accepted;
      }
      var failed, lease := AdvanceLocked(messageId, status, Some(TalkStatusOf(status)), now);
      outcome := if failed then Raised(IllegalTransition) else Accepted;
    }

    // -------------------------------------------------------------------
    // Activity
    // -------------------------------------------------------------------

    method FindActivityTargetLocked(a: Activity) returns (target: Option<Id>)
      ensures target == ActivityTarget(WorkView(), a)
    {
      if a.message != [] && a.message in activeMessages {
        return Some(a.message);
      }
      assert messageOrder[0..] == messageOrder;
      for i := 0 to |messageOrder|
        invariant FirstNamed(WorkView(), messageOrder, a) == FirstNamed(WorkView(), messageOrder[i..], a)
      {
        assert messageOrder[i..][1..] == messageOrder[i + 1..];
        var id := messageOrder[i];
        if id in activeMessages && ActivityNames(activeMessages[id], a) {
          return Some(id);
        }
      }
      target := None;
    }

    method ApplyActivityToWorkLocked(a: Activity, now: int) returns (outcome: Outcome)
      modifies this`activeMessages, this`taskJobs, this`tasks
      ensures Effect(View(), outcome) == RecordActivity(old(View()), a, now)
    {
      hide HoldsLease, ActivityTarget, UpsertTask, UpsertFails, JobFor, Key, RunProjection;
      if a.sessionLease != [] && !HoldsLease(View().registry, a.agent, Some(a.project), a.sessionLease) {
        return Raised(LeaseConflict);
      }
      var target := FindActivityTargetLocked(a);
      if target.Some? && target.value in activeMessages && IsBusy(activeMessages[target.value].status) {
        var env := activeMessages[target.value].env;
        SetStatusLocked(target.value, MessageStatus.Running);
        if env.kind.TaskMessage? {
          // Running is reachable from every unfinished status, so this transition never fails.
          var r := UpsertTaskLocked(env, MessageStatus.Running, now);
        }
      }
      if a.task != [] {
        RunProjectionLocked(Key(a.project, a.task));
      }
      outcome := Accepted;
    }

    method RunProjectionLocked(key: Id)
      modifies this`tasks
      ensures BoardView() == RunProjection(old(BoardView()), key)
    {
      if key in tasks && (tasks[key].status.Queued? || tasks[key].status.Delivered? || tasks[key].status.Running?) {
        tasks := tasks[key := tasks[key].(status := JobStatus.Running)];
      }
    }

    // -------------------------------------------------------------------
    // Cancel and close
    // -------------------------------------------------------------------

    method FindConversationLocked(id: Id, scope: Option<Id>) returns (found: Option<Conversation>)
      ensures found == FindConversation(TalksView(), id, scope)
    {
      ghost var t := TalksView();
      if scope.Some? {
        var key := Key(scope.value, id);
        hide Key;
        if key in conversations {
          assert IsConversationFor(t, id, scope, key);
          return Some(conversations[key]);
        }
        return None;
      }
      var matches := set k | k in conversations && conversations[k].id == id;
      if |matches| == 1 {
        var key :| key in matches;
        OnlyMember(matches, key);
        assert forall k :: k in conversations && conversations[k].id == id ==> k in matches;
        assert IsConversationFor(t, id, scope, key);
        return Some(conversations[key]);
      }
      forall key
        ensures !IsConversationFor(t, id, scope, key)
      {
        if IsConversationFor(t, id, scope, key) {
          UniqueMember(matches, key);
        }
      }
      found := None;
    }

    method CollectCancelTargetsLocked(item: Id, scope: Option<Id>) returns (targets: seq<Id>)
      ensures targets == CancelTargets(WorkView(), messageOrder, item, scope)
    {
      targets := [];
      for i := 0 to |messageOrder|
        invariant targets == CancelTargets(WorkView(), messageOrder[..i], item, scope)
      {
        assert messageOrder[..i + 1][..i] == messageOrder[..i];
        var id := messageOrder[i];
        if id in activeMessages && IsCancelTarget(activeMessages[id], item, scope) {
          targets := targets + [id];
        }
      }
      assert messageOrder[..|messageOrder|] == messageOrder;
    }

    method CancelTargetsLocked(targets: seq<Id>, now: int)
      requires TalksOK(TalksView())
      modifies this`activeMessages, this`taskJobs, this`tasks, this`conversations, this`talkJobs,
               this`resultsByTask, this`taskWaiters, this`futures
      ensures View() == CancelAll(old(View()), targets, now)
    {
      hide Settle, TalksOK;
      ghost var start := View();
      for i := 0 to |targets|
        invariant TalksOK(TalksView())
        invariant View() == CancelAll(start, targets[..i], now)
      {
        assert targets[..i + 1][..i] == targets[..i];
        if targets[i] in activeMessages {
          SettleLocked(targets[i], MessageStatus.Cancelled, now);
        }
      }
      assert targets[..|targets|] == targets;
    }

    method CancelWorkLocked(item: Id, scope: Option<Id>, now: int) returns (outcome: Outcome)
      requires TalksOK(TalksView())
      modifies this`activeMessages, this`taskJobs, this`tasks, this`conversations, this`talkJobs,
               this`resultsByTask, this`taskWaiters, this`futures
      ensures Effect(View(), outcome) == CancelWork(old(View()), item, scope, now)
    {
      hide CancelTargets, CancelAll, FindConversation, TalksOK, Touch, TalkEnvelope;
      var targets := CollectCancelTargetsLocked(item, scope);
      if targets != [] {
        CancelTargetsLocked(targets, now);
        return CancelledItems(targets);
      }
      var conversation := FindConversationLocked(item, scope);
      if conversation.None? || !conversation.value.status.Open? {
        return Raised(NotFound);
      }
      TouchConversationLocked(TalkEnvelope(conversation.value, item, ChatTurn, conversation.value.turn), Some(ConversationStatus.Cancelled));
      outcome := CancelledItems([item]);
    }

    method CloseConversationLocked(id: Id, env: Envelope) returns (outcome: Outcome)
      requires TalksOK(TalksView())
      modifies this`conversations, this`talkJobs
      ensures Effect(View(), outcome) == CloseConversation(old(View()), id, env)
    {
      hide FindConversation, TalksOK, Touch, TalkEnvelope;
      var found := FindConversationLocked(id, Some(env.project));
      if found.None? {
        found := FindConversationLocked(id, None);
      }
      if found.None? {
        return Raised(NotFound);
      }
      var c := found.value;
      var turn := Min(if env.turn < c.turn + 1 then c.turn + 1 else env.turn, c.maxTurns);
      var close := TalkEnvelope(c, id, ChatClose, turn).(
        sender := if env.sender != [] then env.sender else c.sender,
        target := if env.target != [] then env.target else c.target);
      TouchConversationLocked(close, Some(ConversationStatus.Closed));
      outcome := Accepted;
    }

    // -------------------------------------------------------------------
    // Job leases, transcript and telemetry fences
    // -------------------------------------------------------------------

    method FindTaskJobLocked(task: Id, scope: Option<Id>) returns (found: Option<Id>)
      ensures found == FindJob(BoardView(), task, scope)
    {
      ghost var b := BoardView();
      if scope.Some? && Key(scope.value, task) in taskJobs {
        var key := Key(scope.value, task);
        hide Key;
        assert IsJobFor(b, task, scope, key);
        return Some(key);
      }
      hide Key, Names;
      var matches := set k | k in taskJobs && Names(k, task);
      if |matches| == 1 {
        var key :| key in matches;
        OnlyMember(matches, key);
        assert forall k :: k in taskJobs && Names(k, task) ==> k in matches;
        assert IsJobFor(b, task, scope, key);
        return Some(key);
      }
      forall key
        ensures !IsJobFor(b, task, scope, key)
      {
        if IsJobFor(b, task, scope, key) {
          UniqueMember(matches, key);
        }
      }
      found := None;
    }

    method StoreLeaseLocked(key: Id, status: JobStatus, lease: Lease)
      requires key in taskJobs
      modifies this`taskJobs, this`tasks
      ensures View() == StoreLease(old(View()), key, status, lease)
    {
      var job := taskJobs[key].(status := status, lease := Some(lease));
      StoreJobLocked(key, job);
    }

    method HeartbeatJobLocked(task: Id, holder: Id, epoch: int, scope: Option<Id>, heartbeatMs: int, now: int) returns (outcome: Outcome)
      modifies this`taskJobs, this`tasks
      ensures Effect(View(), outcome) == HeartbeatJob(old(View()), task, holder, epoch, scope, heartbeatMs, now)
    {
      hide FindJob, StoreLease, Renew;
      FoundJobIsStored(BoardView(), task, scope);
      var found := FindTaskJobLocked(task, scope);
      if found.None? {
        return Raised(NotFound);
      }
      var job := taskJobs[found.value];
      if job.lease.None? || !Matches(job.lease.value, holder, epoch) {
        return Raised(LeaseConflict);
      }
      var lease := Renew(job.lease.value, heartbeatMs, now);
      StoreLeaseLocked(found.value, job.status, lease);
      outcome := LeaseRenewed(lease);
    }

    method ReclaimJobLocked(task: Id, holder: Id, scope: Option<Id>, now: int) returns (outcome: Outcome)
      modifies this`taskJobs, this`tasks
      ensures Effect(View(), outcome) == ReclaimJob(old(View()), task, holder, scope, now)
    {
      hide FindJob, StoreLease, Reclaim;
      FoundJobIsStored(BoardView(), task, scope);
      var found := FindTaskJobLocked(task, scope);
      if found.None? {
        return Raised(NotFound);
      }
      var job := taskJobs[found.value];
      if job.lease.None? {
        return Raised(LeaseConflict);
      }
      if IsActive(job.lease.value, now) {
        return if job.lease.value.holder == holder then LeaseReclaimed(job.lease.value, false) else Raised(LeaseConflict);
      }
      var reclaimable := Advance(job, Reclaimable);
      if reclaimable.Err? {
        return Raised(IllegalTransition);
      }
      var lease := Reclaim(job.lease.value, holder, now);
      StoreLeaseLocked(found.value, JobStatus.Running, lease);
      outcome := LeaseReclaimed(lease, true);
    }

    method RecordTelemetryLocked(project: Id, task: Id, agent: Id, sessionLease: Id, a: Assertion, toolCount: int) returns (outcome: Outcome)
      modifies this`telemetryByTask
      ensures Effect(View(), outcome) == RecordTelemetry(old(View()), project, task, agent, sessionLease, a, toolCount)
    {
      hide Key, HoldsLease, LeaseAt;
      if task == [] {
        return Raised(TelemetryRejected);
      }
      if sessionLease != [] && !HoldsLease(View().registry, agent, Some(project), sessionLease) {
        return Raised(TelemetryRejected);
      }
      var key := Key(project, task);
      if a.Asserted? {
        var lease := LeaseAt(BoardView(), key);
        if lease.None? || !Matches(lease.value, a.holder, a.epoch) {
          return Raised(TelemetryRejected);
        }
      }
      if key !in tasks || IsTerminal(tasks[key].status) {
        return Raised(TelemetryRejected);
      }
      telemetryByTask := telemetryByTask[key := Telemetry(
        if a.Asserted? then a.epoch else 0, if a.Asserted? then a.holder else [], if toolCount < 0 then 0 else toolCount)];
      outcome := Accepted;
    }

    // -------------------------------------------------------------------
    // Waiting
    // -------------------------------------------------------------------

    method FindOnlyResultLocked(task: Id) returns (found: Option<Id>)
      ensures match found
              case None => forall k :: !IsOnlyResult(WaitsView(), task, k)
              case Some(key) => forall k :: IsOnlyResult(WaitsView(), task, k) <==> k == key
    {
      ghost var w := WaitsView();
      hide Names;
      var matches := set k | k in resultsByTask && Names(k, task);
      assert forall k :: k in w.results && Names(k, task) <==> k in matches;
      if |matches| == 1 {
        var key :| key in matches;
        OnlyMember(matches, key);
        return Some(key);
      }
      forall key
        ensures !IsOnlyResult(w, task, key)
      {
        if IsOnlyResult(w, task, key) {
          UniqueMember(matches, key);
        }
      }
      found := None;
    }

    method RegisterTaskWaiterLocked(key: Id, scoped: bool) returns (f: nat)
      modifies this`taskWaiters, this`futures
      ensures f == |old(futures)|
      ensures var waits := NewFuture(old(WaitsView()), TaskWait(key, scoped));
              WaitsView() == waits.(waiters := waits.waiters[key := WaitersAt(waits, key) + [f]])
    {
      f := |futures|;
      futures := futures + [Future(TaskWait(key, scoped), FutureState.Pending)];
      taskWaiters := taskWaiters[key := (if key in taskWaiters then taskWaiters[key] else []) + [f]];
    }

    method PrepareTaskWaitLocked(task: Id, scope: Option<Id>) returns (outcome: Outcome)
      modifies this`taskWaiters, this`futures
      ensures Effect(View(), outcome) == PrepareTaskWait(old(View()), task, scope)
    {
      hide Key, IsOnlyResult, NewFuture, WaitersAt;
      var key := if scope.Some? then Key(scope.value, task) else task;
      if scope.Some? && key in resultsByTask {
        return Known(resultsByTask[key]);
      }
      if scope.Some? && key !in tasks {
        return Missing;
      }
      if scope.None? {
        var only := FindOnlyResultLocked(task);
        if only.Some? {
          assert IsOnlyResult(WaitsView(), task, only.value);
          OnlyResultIsStored(WaitsView(), task, only.value);
          return Known(resultsByTask[only.value]);
        }
      }
      var f := RegisterTaskWaiterLocked(key, scope.Some?);
      outcome := Waiting(f);
    }

    static lemma OnlyResultIsStored(w: Waits, task: Id, key: Id)
      requires IsOnlyResult(w, task, key)
      ensures key in w.results
    {
    }

    method CleanupTaskWaiterLocked(key: Id, f: nat) returns (outcome: Outcome)
      modifies this`taskWaiters
      ensures Effect(View(), outcome) == CleanupTaskWaiter(old(View()), key, f)
    {
      var waiters := if key in taskWaiters then taskWaiters[key] else [];
      var left := [];
      for i := 0 to |waiters|
        invariant left == Remove(waiters[..i], f)
      {
        assert waiters[..i + 1][..i] == waiters[..i];
        if waiters[i] != f {
          left := left + [waiters[i]];
        }
      }
      assert waiters[..|waiters|] == waiters;
      taskWaiters := if left == [] then taskWaiters - {key} else taskWaiters[key := left];
      outcome := Accepted;
    }

    method TimeoutReplyLocked(correlation: Id, now: int) returns (outcome: Outcome)
      requires TalksOK(TalksView())
      modifies this`activeMessages, this`taskJobs, this`tasks, this`conversations, this`talkJobs
      ensures Effect(View(), outcome) == TimeoutReply(old(View()), correlation, now)
    {
      hide Touch, UpsertTask, UpsertFails, TalksOK, JobFor, Key;
      outcome := Accepted;
      assert messageOrder[0..] == messageOrder;
      for i := 0 to |messageOrder|
        invariant View() == old(View())
        invariant FirstCorrelated(WorkView(), messageOrder, correlation) == FirstCorrelated(WorkView(), messageOrder[i..], correlation)
      {
        assert messageOrder[i..][1..] == messageOrder[i + 1..];
        var id := messageOrder[i];
        if id in activeMessages && activeMessages[id].env.correlation == correlation {
          var env := activeMessages[id].env;
          SetStatusLocked(id, MessageStatus.Timeout);
          var r := UpsertTaskLocked(env, MessageStatus.Timeout, now);
          TouchConversationLocked(env, Some(ConversationStatus.Timeout));
          return;
        }
      }
    }

    method CleanupReplyWaiterLocked(correlation: Id, f: nat) returns (outcome: Outcome)
      modifies this`pendingReplies
      ensures Effect(View(), outcome) == CleanupReplyWaiter(old(View()), correlation, f)
    {
      if correlation in pendingReplies && pendingReplies[correlation] == f {
        pendingReplies := pendingReplies - {correlation};
      }
      outcome := Accepted;
    }

    method AbandonWait(f: nat) returns (outcome: Outcome)
      modifies this`futures
      ensures Effect(View(), outcome) == BrokerOps.AbandonWait(old(View()), f)
    {
      if f < |futures| && futures[f].state.Pending? {
        futures := futures[f := futures[f].(state := Abandoned)];
      }
      outcome := Accepted;
    }

    // -------------------------------------------------------------------
    // Facade
    // -------------------------------------------------------------------

    lemma ValidParts()
      requires Valid()
      ensures WorkOK(WorkView()) && TalksOK(TalksView()) && RegistryOK(View().registry)
    {
    }

    method PerformOnSessions(op: Op, now: int) returns (outcome: Outcome)
      requires Valid() && ChangesSessions(op)
      modifies this
      ensures Effect(View(), outcome) == Act(cfg, old(View()), op, now)
    {
      hide Inv, Acquire, HeartbeatSession, ReleaseSession, ExpireSessions, StaleLeases;
      ValidParts();
      match op {
        case DoAcquire(c) => outcome := AcquireSessionLocked(c, now);
        case DoHeartbeatSession(lease, scope, worker) => outcome := HeartbeatSessionLocked(lease, scope, worker, now);
        case DoReleaseSession(lease, scope) => outcome := ReleaseSessionLocked(lease, scope, now);
        case DoExpireSessions =>
          var expired := ExpireSessionsLocked(now);
          outcome := ExpiredSessions(expired);
      }
    }

    predicate ChangesWork(op: Op) {
      op.DoEnqueue? || op.DoDeliver? || op.DoSaveReply? || op.DoUpdateStatus? || op.DoRecordActivity? || op.DoCancelWork? || op.DoCloseConversation?
    }

    method PerformOnWork(op: Op, now: int) returns (outcome: Outcome)
      requires Valid() && ChangesWork(op)
      modifies this
      ensures Effect(View(), outcome) == Act(cfg, old(View()), op, now)
    {
      hide Inv, Enqueue, Deliver, SaveReply, UpdateStatus, RecordActivity, CancelWork, CloseConversation;
      ValidParts();
      match op {
        case DoEnqueue(env, createWaiter) => outcome := EnqueueMessageLocked(env, createWaiter, now);
        case DoDeliver(agent, scope, lease, env) => outcome := DeliverMessageLocked(agent, scope, lease, env, now);
        case DoSaveReply(message, env, claim, lease) => outcome := SaveReplyLocked(message, env, claim, lease, now);
        case DoUpdateStatus(message, status, lease) => outcome := UpdateMessageStatusLocked(message, status, lease, now);
        case DoRecordActivity(activity) => outcome := ApplyActivityToWorkLocked(activity, now);
        case DoCancelWork(item, scope) => outcome := CancelWorkLocked(item, scope, now);
        case DoCloseConversation(conversation, env) => outcome := CloseConversationLocked(conversation, env);
      }
    }

    method PerformOther(op: Op, now: int) returns (outcome: Outcome)
      requires Valid() && !ChangesSessions(op) && !ChangesWork(op)
      modifies this
      ensures Effect(View(), outcome) == Act(cfg, old(View()), op, now)
    {
      hide Inv, HeartbeatJob, ReclaimJob, TranscriptFence, RecordTelemetry, PrepareTaskWait, CleanupTaskWaiter, PrepareReplyWait, BrokerOps.AbandonWait;
      hide TimeoutReply, CleanupReplyWaiter;
      ValidParts();
      match op {
        case DoHeartbeatJob(task, holder, epoch, scope, heartbeatMs) => outcome := HeartbeatJobLocked(task, holder, epoch, scope, heartbeatMs, now);
        case DoReclaimJob(task, holder, scope) => outcome := ReclaimJobLocked(task, holder, scope, now);
        case DoAppendTranscript(project, task, agent, lease, claim) =>
          FenceKeepsState(View(), op);
          outcome := TranscriptFence(View(), project, task, agent, lease, claim).outcome;
        case DoRecordTelemetry(project, task, agent, lease, claim, toolCount) =>
          outcome := RecordTelemetryLocked(project, task, agent, lease, claim, toolCount);
        case DoPrepareTaskWait(task, scope) => outcome := PrepareTaskWaitLocked(task, scope);
        case DoCleanupTaskWaiter(key, f) =>
          if IsPending(WaitsView(), f) {
            outcome := Accepted;
          } else {
            outcome := CleanupTaskWaiterLocked(key, f);
          }
        case DoPrepareReplyWait(correlation) => outcome := PrepareReplyWaitLocked(correlation);
        case DoAbandonWait(f) => outcome := AbandonWait(f);
        case DoTimeoutReply(correlation) => outcome := TimeoutReplyLocked(correlation, now);
        case DoCleanupReplyWaiter(correlation, f) => outcome := CleanupReplyWaiterLocked(correlation, f);
        case DoObserve => outcome := Accepted;
      }
    }

    method PrepareReplyWaitLocked(correlation: Id) returns (outcome: Outcome)
      modifies this`pendingReplies, this`futures
      ensures Effect(View(), outcome) == PrepareReplyWait(old(View()), correlation)
    {
      var f := ReplyFutureLocked(correlation);
      outcome := Waiting(f);
    }

    method BeginCall(op: Op, now: int)
      requires Valid()
      modifies this
      ensures Valid() && View() == Swept(cfg, old(View()), op, now)
    {
      hide Sweep, Inv;
      ValidParts();
      if Sweeps(op) {
        SweepIsComplete(cfg, View(), now);
        ExpireTimedOutMessagesLocked(now);
      }
    }

    method Perform(op: Op, now: int) returns (outcome: Outcome)
      requires Valid()
      modifies this
      ensures Valid() && Effect(View(), outcome) == Act(cfg, old(View()), op, now)
    {
      hide Act, Inv;
      ActKeeps(cfg, View(), op, now, []);
      if ChangesSessions(op) {
        outcome := PerformOnSessions(op, now);
      } else if ChangesWork(op) {
        outcome := PerformOnWork(op, now);
      } else {
        outcome := PerformOther(op, now);
      }
    }

    /** One call at the store's door: the sweep, where the operation has one, and the operation itself. */
    method Execute(op: Op, now: int) returns (outcome: Outcome)
      requires Valid()
      modifies this
      ensures Valid() && Effect(View(), outcome) == Apply(cfg, old(View()), op, now)
    {
      hide Act, Swept, Inv;
      BeginCall(op, now);
      outcome := Perform(op, now);
    }
  }
}

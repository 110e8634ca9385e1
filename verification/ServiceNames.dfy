/** Naming discipline of a service: one project, and task ids that name nothing else. */
module ServiceNames {
  import opened Basics
  import opened Jobs
  import opened BrokerState
  import opened BrokerOps
  import opened BrokerInvariants
  import opened BrokerSteps
  import opened BrokerActs
  import opened Service

  /** The project a service runs in and the ids used for tasks. */
  datatype Naming = Naming(project: Id, tasks: iset<Id>)

  ghost predicate IsUsable(holder: Id) {
    holder != [] && Strip(holder) == holder
  }

  ghost predicate NamedEnvelope(names: Naming, env: Envelope) {
    && [] !in names.tasks && env.project == names.project
    && (env.task != [] ==> env.task in names.tasks)
    && env.conversation !in names.tasks && env.id !in names.tasks
    && (env.target == [] || IsUsable(env.target))
  }

  /** A message names a task that exists, or creates it. */
  ghost predicate TaskIsKnown(names: Naming, b: Board, env: Envelope) {
    env.task != [] ==> Key(names.project, env.task) in b.jobs
  }

  ghost predicate WorkNamed(names: Naming, w: Work, b: Board) {
    forall id :: id in w.byId ==> NamedEnvelope(names, w.byId[id].env) && TaskIsKnown(names, b, w.byId[id].env)
  }

  ghost predicate JobNamed(names: Naming, job: Job) {
    && job.project == names.project && job.id in names.tasks
    && (job.lease.Some? ==> IsUsable(job.lease.value.holder))
  }

  ghost predicate BoardNamed(names: Naming, b: Board) {
    forall k :: k in b.jobs ==> JobNamed(names, b.jobs[k])
  }

  ghost predicate TalksNamed(names: Naming, t: Talks) {
    forall k :: k in t.conversations ==>
      && t.conversations[k].project == names.project && t.conversations[k].id !in names.tasks
      && k == Key(names.project, t.conversations[k].id)
  }

  ghost predicate ItemsFinished(names: Naming, b: Board, items: seq<Id>) {
    forall i :: 0 <= i < |items| && items[i] in names.tasks ==> IsFinished(b, Key(names.project, items[i]))
  }

  ghost predicate SessionsNamed(names: Naming, r: Registry, b: Board) {
    forall l :: l in r.byLease ==> ItemsFinished(names, b, r.byLease[l].settled)
  }

  ghost predicate Named(names: Naming, s: State) {
    && [] !in names.tasks
    && WorkNamed(names, s.work, s.board) && BoardNamed(names, s.board)
    && TalksNamed(names, s.talks) && SessionsNamed(names, s.registry, s.board)
  }

  // ---------------------------------------------------------------------
  // Small updates
  // ---------------------------------------------------------------------

  lemma KeyIsInjective(project: Id, a: Id, b: Id)
    requires Key(project, a) == Key(project, b)
    ensures a == b
  {
    assert Key(project, a)[|project| + 1..] == a;
    assert Key(project, b)[|project| + 1..] == b;
  }

  lemma TransitionKeepsNames(names: Naming, job: Job, status: MessageStatus)
    requires JobNamed(names, job) && Transition(job, status).Ok?
    ensures JobNamed(names, Transition(job, status).value)
  {
  }

  lemma TransitionGrantsNothing(job: Job, status: MessageStatus)
    requires Transition(job, status).Ok?
    ensures var moved := Transition(job, status).value;
            && (moved.lease.None? || moved.lease == job.lease)
            && (moved.status.Delivered? ==> status.Delivered? || status.Closed?)
  {
  }

  lemma UpsertKeepsNames(names: Naming, b: Board, env: Envelope, status: MessageStatus, now: int)
    requires BoardOK(b) && BoardNamed(names, b) && NamedEnvelope(names, env)
    ensures var n := UpsertTask(b, env, status, now);
            && BoardNamed(names, n) && BoardOK(n) && Quiet(b, n)
            && (TaskIsKnown(names, b, env) || !env.kind.TaskMessage? ==> n.jobs.Keys == b.jobs.Keys)
            && (forall k :: k in n.jobs && k != Key(names.project, env.task) ==> k in b.jobs && n.jobs[k] == b.jobs[k])
            && (env.kind.TaskMessage? && env.task != [] && !UpsertFails(b, env, status) ==> Key(names.project, env.task) in n.jobs)
  {
    hide Key, UpsertTask, UpsertFails, JobNamed, Quiet, BoardOK, IsUsable;
    UpsertKeeps(b, env, status, now);
    UpsertKeepsKeys(b, env, status, now);
    UpsertedJobIsNamed(names, b, env, status, now);
  }

  lemma UpsertedJobIsNamed(names: Naming, b: Board, env: Envelope, status: MessageStatus, now: int)
    requires BoardNamed(names, b) && NamedEnvelope(names, env)
    ensures var n := UpsertTask(b, env, status, now);
            Key(names.project, env.task) in n.jobs ==> JobNamed(names, n.jobs[Key(names.project, env.task)])
  {
    hide Key, Transition, IsUsable, FreshLease;
    if JobFor(b, env).Some? && Transition(JobFor(b, env).value, status).Ok? {
      TransitionKeepsNames(names, JobFor(b, env).value, status);
      FreshLeaseHolder(env.target, now);
    }
  }

  lemma UpsertKeepsKeys(b: Board, env: Envelope, status: MessageStatus, now: int)
    requires BoardOK(b)
    ensures var n := UpsertTask(b, env, status, now);
            var key := Key(env.project, env.task);
            && (env.task == [] || key in b.jobs || !env.kind.TaskMessage? ==> n.jobs.Keys == b.jobs.Keys)
            && (forall k :: k in n.jobs && k != key ==> k in b.jobs && n.jobs[k] == b.jobs[k])
            && (env.kind.TaskMessage? && env.task != [] && !UpsertFails(b, env, status) ==> key in n.jobs)
  {
    ProjectedTasksHaveJobs(b);
    hide Key, Transition, FreshLease, BoardOK;
  }

  /** Only delivering grants a lease, save that a close may pass by a delivered job that has none. */
  lemma UpsertGrantsNothing(b: Board, env: Envelope, status: MessageStatus, now: int)
    requires BoardOK(b) && !status.Delivered? && !status.Closed?
    ensures NoGrants(b, UpsertTask(b, env, status, now))
  {
    hide Key, Transition, FreshLease, Quiet;
    UpsertKeeps(b, env, status, now);
    if JobFor(b, env).Some? && Transition(JobFor(b, env).value, status).Ok? {
      TransitionGrantsNothing(JobFor(b, env).value, status);
    }
  }

  lemma FreshLeaseHolder(holder: Id, now: int)
    ensures FreshLease(holder, DEFAULT_HEARTBEAT_MS, 1, now).holder == holder
  {
  }

  lemma TouchKeepsNames(names: Naming, t: Talks, env: Envelope, status: Option<ConversationStatus>)
    requires TalksNamed(names, t) && env.project == names.project && env.conversation !in names.tasks
    ensures TalksNamed(names, Touch(t, env, status))
  {
    hide TransitionTalkJob, TalkJobFor;
    if env.conversation != [] && IsTalk(env.kind) {
      var key := Key(env.project, env.conversation);
      if key in t.conversations {
        KeyIsInjective(names.project, env.conversation, t.conversations[key].id);
      }
    }
    hide Key;
  }

  // ---------------------------------------------------------------------
  // Settling
  // ---------------------------------------------------------------------

  /** The names stay in order, and no lease is granted or changed. */
  ghost predicate Tidy(names: Naming, s: State, n: State) {
    Named(names, n) && NoGrants(s.board, n.board)
  }

  lemma WorkNamedStays(names: Naming, w: Work, b: Board, n: Work, m: Board)
    requires WorkNamed(names, w, b) && LessBusy(w, n) && Quiet(b, m)
    ensures WorkNamed(names, n, m)
  {
    hide Key, IsUsable;
  }

  lemma FinishedItemsStay(names: Naming, b: Board, m: Board, items: seq<Id>)
    requires ItemsFinished(names, b, items) && Quiet(b, m)
    ensures ItemsFinished(names, m, items)
  {
    hide Key;
  }

  lemma SessionsNamedStays(names: Naming, r: Registry, b: Board, m: Board)
    requires SessionsNamed(names, r, b) && Quiet(b, m)
    ensures SessionsNamed(names, r, m)
  {
    hide ItemsFinished, Quiet;
    forall l | l in r.byLease
      ensures ItemsFinished(names, m, r.byLease[l].settled)
    {
      FinishedItemsStay(names, b, m, r.byLease[l].settled);
    }
  }

  lemma TidyReflexive(names: Naming, s: State)
    requires Named(names, s)
    ensures Tidy(names, s, s)
  {
  }

  lemma TidyTransitive(names: Naming, a: State, b: State, c: State)
    requires Inv(b) && Inv(c) && NoGrants(a.board, b.board) && Tidy(names, b, c)
    ensures Tidy(names, a, c)
  {
    hide Named, WorkOK, OneBusyPerWorker, TalksOK, WaitsOK, RegistryOK, OneSessionPerAgent, Key;
    QuietTransitive(a.board, b.board, c.board);
  }

  /** New work, board and conversations that respect the names leave the state in order. */
  lemma NamedParts(names: Naming, s: State, n: State)
    requires Named(names, s) && LessBusy(s.work, n.work) && Quiet(s.board, n.board)
    requires BoardNamed(names, n.board) && TalksNamed(names, n.talks) && n.registry == s.registry
    ensures Named(names, n)
  {
    hide WorkNamed, SessionsNamed, BoardNamed, TalksNamed, Quiet, LessBusy;
    WorkNamedStays(names, s.work, s.board, n.work, n.board);
    SessionsNamedStays(names, s.registry, s.board, n.board);
  }

  lemma SettleIsTidy(names: Naming, s: State, id: Id, status: MessageStatus, now: int)
    requires Inv(s) && Named(names, s) && id in s.work.byId && (status.Cancelled? || status.Timeout?)
    ensures var n := Settle(s, id, status, now);
            Tidy(names, s, n) && ItemsFinished(names, n.board, SettledIds(s.work.byId[id].env))
  {
    hide UpsertTask, Touch, SettleWaits, Inv, BoardNamed, TalksNamed, SessionsNamed, LessBusy, TalksQuiet, WaitsGrow, WaitsSettled, Key, IsUsable;
    var env := s.work.byId[id].env;
    var n := Settle(s, id, status, now);
    BoardIsOK(s);
    SettleKeeps(s, id, status, now);
    UpsertKeepsNames(names, s.board, env, status, now);
    UpsertGrantsNothing(s.board, env, status, now);
    TouchKeepsNames(names, s.talks, env, Some(TalkStatusOf(status)));
    NamedParts(names, s, n);
  }

  lemma FinishedItemsAdd(names: Naming, b: Board, x: seq<Id>, y: seq<Id>)
    requires ItemsFinished(names, b, x) && ItemsFinished(names, b, y)
    ensures ItemsFinished(names, b, x + y)
  {
    hide Key;
  }

  lemma {:induction false} SettleAgentIsTidy(names: Naming, s: State, ids: seq<Id>, agent: Id, project: Id, now: int)
    requires Inv(s) && Named(names, s)
    ensures var r := SettleAgent(s, ids, agent, project, now); Tidy(names, s, r.state) && ItemsFinished(names, r.state.board, r.items)
    decreases |ids|
  {
    hide Inv, Named, Settle, Settling, ItemsFinished, NoGrants;
    if ids == [] {
      TidyReflexive(names, s);
      NoItems(names, s.board);
    } else {
      var id, rest := ids[|ids| - 1], ids[..|ids| - 1];
      var before := SettleAgent(s, rest, agent, project, now);
      SettleAgentKeeps(s, rest, agent, project, now);
      SettleAgentIsTidy(names, s, rest, agent, project, now);
      NoItems(names, before.state.board);
      if id in before.state.work.byId && ConcernsAgent(before.state.work.byId[id], agent, project) {
        var n := Settle(before.state, id, MessageStatus.Cancelled, now);
        SettleIsTidy(names, before.state, id, MessageStatus.Cancelled, now);
        SettleIsSettling(before.state, id, MessageStatus.Cancelled, now);
        TidyTransitive(names, s, before.state, n);
        GrantlessIsQuiet(before.state.board, n.board);
        FinishedItemsStay(names, before.state.board, n.board, before.items);
        FinishedItemsAdd(names, n.board, before.items, SettledIds(before.state.work.byId[id].env));
      } else {
        assert before.items + [] == before.items;
      }
    }
  }

  lemma NoItems(names: Naming, b: Board)
    ensures ItemsFinished(names, b, [])
  {
  }

  lemma GrantlessIsQuiet(b: Board, n: Board)
    requires NoGrants(b, n)
    ensures Quiet(b, n)
  {
  }

  lemma {:induction false} TimeoutsAreTidy(names: Naming, s: State, ids: seq<Id>, now: int)
    requires Inv(s) && Named(names, s)
    ensures Tidy(names, s, TimeoutMessages(s, ids, now))
    decreases |ids|
  {
    hide Inv, Named, Settle, Settling, NoGrants;
    if ids == [] {
      TidyReflexive(names, s);
    } else {
      var id, rest := ids[|ids| - 1], ids[..|ids| - 1];
      var before := TimeoutMessages(s, rest, now);
      TimeoutMessagesKeeps(s, rest, now);
      TimeoutsAreTidy(names, s, rest, now);
      if id in before.work.byId && IsOverdue(before.work.byId[id], now) {
        SettleIsTidy(names, before, id, MessageStatus.Timeout, now);
        SettleIsSettling(before, id, MessageStatus.Timeout, now);
        TidyTransitive(names, s, before, Settle(before, id, MessageStatus.Timeout, now));
      }
    }
  }

  lemma {:induction false} CancelsAreTidy(names: Naming, s: State, ids: seq<Id>, now: int)
    requires Inv(s) && Named(names, s)
    ensures Tidy(names, s, CancelAll(s, ids, now))
    decreases |ids|
  {
    hide Inv, Named, Settle, Settling, NoGrants;
    if ids == [] {
      TidyReflexive(names, s);
    } else {
      var id, rest := ids[|ids| - 1], ids[..|ids| - 1];
      var before := CancelAll(s, rest, now);
      CancelAllKeeps(s, rest, now);
      CancelsAreTidy(names, s, rest, now);
      if id in before.work.byId {
        SettleIsTidy(names, before, id, MessageStatus.Cancelled, now);
        SettleIsSettling(before, id, MessageStatus.Cancelled, now);
        TidyTransitive(names, s, before, Settle(before, id, MessageStatus.Cancelled, now));
      }
    }
  }

  /** An ended session remembers only finished tasks. */
  lemma EndSessionIsTidy(names: Naming, s: State, lease: Id, status: SessionStatus, now: int)
    requires Inv(s) && Named(names, s) && lease in s.registry.byLease
    ensures var n := EndSession(s, lease, status, now);
            Tidy(names, s, n) && lease in n.registry.byLease && ItemsFinished(names, n.board, n.registry.byLease[lease].settled)
  {
    hide Inv, WorkNamed, BoardNamed, TalksNamed, ItemsFinished, SettleAgent, NoGrants, Settling;
    var x := s.registry.byLease[lease];
    SettleAgentIsTidy(names, s, s.work.order, x.agent, x.project, now);
    SettleAgentKeeps(s, s.work.order, x.agent, x.project, now);
  }

  lemma {:induction false} ExpiriesAreTidy(names: Naming, cfg: Config, s: State, leases: seq<Id>, now: int)
    requires Inv(s) && Named(names, s)
    ensures Tidy(names, s, ExpireSessions(cfg, s, leases, now))
    decreases |leases|
  {
    hide Inv, Named, EndSession, Settling, NoGrants, Covered;
    if leases == [] {
      TidyReflexive(names, s);
    } else {
      var lease, rest := leases[|leases| - 1], leases[..|leases| - 1];
      var before := ExpireSessions(cfg, s, rest, now);
      ExpireSessionsKeeps(cfg, s, rest, now);
      ExpiriesAreTidy(names, cfg, s, rest, now);
      if lease in before.registry.byLease && IsStale(cfg, before.registry.byLease[lease], now) {
        EndSessionIsTidy(names, before, lease, Expired, now);
        EndSessionKeeps(before, lease, Expired, now);
        TidyTransitive(names, s, before, EndSession(before, lease, Expired, now));
      }
    }
  }

  lemma SweepIsTidy(names: Naming, cfg: Config, s: State, now: int)
    requires Inv(s) && Named(names, s)
    ensures Tidy(names, s, Sweep(cfg, s, now))
  {
    hide Inv, Named, Settling, NoGrants, Covered, ExpireSessions, TimeoutMessages;
    var expired := ExpireSessions(cfg, s, s.registry.order, now);
    ExpireSessionsKeeps(cfg, s, s.registry.order, now);
    ExpiriesAreTidy(names, cfg, s, s.registry.order, now);
    TimeoutMessagesKeeps(expired, expired.work.order, now);
    TimeoutsAreTidy(names, expired, expired.work.order, now);
    TidyTransitive(names, s, expired, Sweep(cfg, s, now));
  }

  // ---------------------------------------------------------------------
  // Operations
  // ---------------------------------------------------------------------

  /**
   * Whether recording an accepted reply leaves store and checkpoint in agreement about its task. A chat
   * close does not end a task, and a reply for a task without a job ends nothing either, so neither may
   * come with a live lease to lose, a claim to record, or a lease to grant.
   */
  predicate ReplyIsFaithful(b: Board, reply: Envelope, claim: Assertion) {
    var key := Key(reply.project, reply.task);
    || reply.task == []
    || (if key !in b.jobs then reply.kind.TaskMessage? || DecodeClaim(claim).None?
        else
          || !reply.kind.ChatClose?
          || IsTerminal(b.jobs[key].status)
          || (b.jobs[key].lease.None? && DecodeClaim(claim).None? && !(b.jobs[key].status.Delivered? && reply.target != [])))
  }

  /**
   * What the callers of a service respect: its one project, ids that do not collide, holders without
   * surrounding blanks, faithful replies, status updates only to running, and lease calls that give a
   * job's own task id.
   */
  ghost predicate Lawful(names: Naming, s: State, op: Op) {
    match op
    case DoEnqueue(env, _) => NamedEnvelope(names, env) && (env.kind.TaskMessage? || TaskIsKnown(names, s.board, env))
    case DoSaveReply(_, env, claim, _) => NamedEnvelope(names, env) && ReplyIsFaithful(s.board, env, claim)
    case DoUpdateStatus(_, status, _) => status.Running? || status.InProgress?
    case DoCancelWork(_, scope) => scope.None? || scope.value == names.project
    case DoCloseConversation(_, env) => env.project == names.project
    case DoHeartbeatJob(task, _, _, scope, _) => FindJob(s.board, task, scope) in {None, Some(Key(names.project, task))}
    case DoReclaimJob(task, holder, scope) => FindJob(s.board, task, scope) in {None, Some(Key(names.project, task))} && IsUsable(holder)
    case _ => true
  }

  lemma AdvancedIsTidy(names: Naming, s: State, id: Id, status: MessageStatus, talk: Option<ConversationStatus>, now: int)
    requires Inv(s) && Named(names, s) && id in s.work.byId && IsBusy(s.work.byId[id].status)
    ensures var n := Advanced(s, id, status, talk, now).state;
            && Named(names, n)
            && (!status.Delivered? && !status.Closed? ==> NoGrants(s.board, n.board))
            && (forall k :: k in n.board.jobs && k != Key(names.project, s.work.byId[id].env.task) ==>
                  k in s.board.jobs && n.board.jobs[k] == s.board.jobs[k])
  {
    hide UpsertTask, UpsertFails, Touch, Inv, BoardNamed, TalksNamed, SessionsNamed, LessBusy, TalksQuiet, WaitsGrow, Key, IsUsable;
    var env := s.work.byId[id].env;
    BoardIsOK(s);
    AdvancedKeeps(s, id, status, talk, now);
    UpsertKeepsNames(names, s.board, env, status, now);
    if !status.Delivered? && !status.Closed? {
      UpsertGrantsNothing(s.board, env, status, now);
    }
    TouchKeepsNames(names, s.talks, env, talk);
    NamedParts(names, s, Advanced(s, id, status, talk, now).state);
    TidyReflexive(names, s);
  }

  lemma DeliverIsNamed(names: Naming, s: State, agent: Id, scope: Option<Id>, lease: Id, item: Envelope, now: int)
    requires Inv(s) && Named(names, s)
    ensures Named(names, Deliver(s, agent, scope, lease, item, now).state)
  {
    hide Inv, Named, Advanced, PollRefused, Key, NoGrants;
    if item.id in s.work.byId && IsBusy(s.work.byId[item.id].status) {
      AdvancedIsTidy(names, s, item.id, MessageStatus.Delivered, None, now);
    }
  }

  lemma UpdateStatusIsTidy(names: Naming, s: State, messageId: Id, status: MessageStatus, lease: Id, now: int)
    requires Inv(s) && Named(names, s) && (status.Running? || status.InProgress?)
    ensures Tidy(names, s, UpdateStatus(s, messageId, status, lease, now).state)
  {
    hide Inv, Named, Advanced, HoldsLease, Key, NoGrants;
    TidyReflexive(names, s);
    if messageId in s.work.byId && IsBusy(s.work.byId[messageId].status) {
      AdvancedIsTidy(names, s, messageId, status, Some(TalkStatusOf(status)), now);
    }
  }

  lemma SaveReplyIsTidy(names: Naming, s: State, op: Op, now: int)
    requires Inv(s) && Named(names, s) && op.DoSaveReply? && Lawful(names, s, op)
    ensures Tidy(names, s, SaveReply(s, op.message, op.env, op.claim, op.lease, now).state)
  {
    hide UpsertTask, Touch, SettleWaits, Inv, BoardNamed, TalksNamed, SessionsNamed, LessBusy, TalksQuiet, WaitsGrow, Key, HoldsLease, ReplyIsStale;
    hide IsUsable, NoGrants, JobFor, Transition;
    TidyReflexive(names, s);
    BoardIsOK(s);
    SaveReplyKeeps(s, op.message, op.env, op.claim, op.lease, now);
    UpsertKeepsNames(names, s.board, op.env, ReplyStatus(op.env), now);
    ReplyGrantsNothing(s.board, op.env, op.claim, now);
    TouchKeepsNames(names, s.talks, op.env, Some(TalkStatusOf(ReplyStatus(op.env))));
    NamedParts(names, s, SaveReply(s, op.message, op.env, op.claim, op.lease, now).state);
  }

  lemma ProjectedTasksHaveJobs(b: Board)
    requires BoardOK(b)
    ensures forall k :: k in b.tasks ==> k in b.jobs
  {
  }

  lemma ReplyGrantsNothing(b: Board, env: Envelope, claim: Assertion, now: int)
    requires BoardOK(b) && ReplyIsFaithful(b, env, claim)
    ensures NoGrants(b, UpsertTask(b, env, ReplyStatus(env), now))
  {
    ProjectedTasksHaveJobs(b);
    hide Key, BoardOK, Quiet;
    UpsertKeeps(b, env, ReplyStatus(env), now);
    if !env.kind.ChatClose? {
      hide Transition;
      UpsertGrantsNothing(b, env, ReplyStatus(env), now);
    }
  }

  lemma RecordActivityIsTidy(names: Naming, s: State, a: Activity, now: int)
    requires Inv(s) && Named(names, s)
    ensures Tidy(names, s, RecordActivity(s, a, now).state)
  {
    hide UpsertTask, Inv, BoardNamed, TalksNamed, SessionsNamed, LessBusy, TalksQuiet, WaitsGrow, Key, HoldsLease, ActivityTarget, RunProjection;
    hide IsUsable, NoGrants;
    TidyReflexive(names, s);
    BoardIsOK(s);
    RecordActivityKeeps(s, a, now);
    var target := ActivityTarget(s.work, a);
    var board := s.board;
    if target.Some? && target.value in s.work.byId && IsBusy(s.work.byId[target.value].status) {
      var env := s.work.byId[target.value].env;
      if env.kind.TaskMessage? {
        UpsertKeepsNames(names, s.board, env, MessageStatus.Running, now);
        UpsertGrantsNothing(s.board, env, MessageStatus.Running, now);
        board := UpsertTask(s.board, env, MessageStatus.Running, now);
      }
    }
    RunProjectionIsTidy(names, s.board, board, Key(a.project, a.task));
    NamedParts(names, s, RecordActivity(s, a, now).state);
  }

  lemma RunProjectionIsTidy(names: Naming, b: Board, n: Board, key: Id)
    requires BoardNamed(names, n) && NoGrants(b, n)
    ensures BoardNamed(names, RunProjection(n, key)) && NoGrants(b, RunProjection(n, key))
  {
  }

  /** The conversation a call finds is not a task's, and it goes by the id asked for. */
  lemma FoundConversationIsNamed(names: Naming, t: Talks, id: Id, scope: Option<Id>)
    requires TalksNamed(names, t) && (scope.None? || scope.value == names.project)
    ensures FindConversation(t, id, scope).Some? ==>
              id !in names.tasks && FindConversation(t, id, scope).value.project == names.project
  {
    if exists k :: IsConversationFor(t, id, scope, k) {
      var k :| IsConversationFor(t, id, scope, k) && FindConversation(t, id, scope) == Some(t.conversations[k]);
      if scope.Some? {
        KeyIsInjective(names.project, id, t.conversations[k].id);
      }
    }
  }

  lemma TouchIsTidy(names: Naming, s: State, env: Envelope, status: Option<ConversationStatus>)
    requires Inv(s) && Named(names, s) && env.project == names.project && env.conversation !in names.tasks
    ensures Tidy(names, s, s.(talks := Touch(s.talks, env, status)))
  {
    hide Touch, Inv, BoardNamed, TalksNamed, WorkNamed, SessionsNamed;
    TouchKeepsNames(names, s.talks, env, status);
    TidyReflexive(names, s);
  }

  lemma CancelIsTidy(names: Naming, s: State, item: Id, scope: Option<Id>, now: int)
    requires Inv(s) && Named(names, s) && (scope.None? || scope.value == names.project)
    ensures Tidy(names, s, CancelWork(s, item, scope, now).state)
  {
    hide Inv, WorkNamed, BoardNamed, SessionsNamed, CancelAll, CancelTargets, FindConversation, Touch, NoGrants, TalksNamed;
    TidyReflexive(names, s);
    CancelsAreTidy(names, s, CancelTargets(s.work, s.work.order, item, scope), now);
    FoundConversationIsNamed(names, s.talks, item, scope);
    var found := FindConversation(s.talks, item, scope);
    if found.Some? {
      TouchIsTidy(names, s, TalkEnvelope(found.value, item, ChatTurn, found.value.turn), Some(ConversationStatus.Cancelled));
    }
  }

  lemma CloseIsTidy(names: Naming, s: State, id: Id, env: Envelope)
    requires Inv(s) && Named(names, s) && env.project == names.project
    ensures Tidy(names, s, CloseConversation(s, id, env).state)
  {
    hide Inv, WorkNamed, BoardNamed, SessionsNamed, FindConversation, Touch, NoGrants, TalksNamed;
    TidyReflexive(names, s);
    FoundConversationIsNamed(names, s.talks, id, Some(env.project));
    FoundConversationIsNamed(names, s.talks, id, None);
    forall close: Envelope, status | close.project == names.project && close.conversation !in names.tasks
      ensures Tidy(names, s, s.(talks := Touch(s.talks, close, status)))
    {
      TouchIsTidy(names, s, close, status);
    }
    hide Tidy;
  }

  lemma TimeoutReplyIsTidy(names: Naming, s: State, correlation: Id, now: int)
    requires Inv(s) && Named(names, s)
    ensures Tidy(names, s, TimeoutReply(s, correlation, now).state)
  {
    hide UpsertTask, Touch, Inv, BoardNamed, TalksNamed, SessionsNamed, LessBusy, TalksQuiet, WaitsGrow, Key, FirstCorrelated, IsUsable, NoGrants;
    TidyReflexive(names, s);
    BoardIsOK(s);
    TimeoutReplyKeeps(s, correlation, now);
    var target := FirstCorrelated(s.work, s.work.order, correlation);
    if target.Some? && target.value in s.work.byId {
      var env := s.work.byId[target.value].env;
      UpsertKeepsNames(names, s.board, env, MessageStatus.Timeout, now);
      UpsertGrantsNothing(s.board, env, MessageStatus.Timeout, now);
      TouchKeepsNames(names, s.talks, env, Some(ConversationStatus.Timeout));
      NamedParts(names, s, TimeoutReply(s, correlation, now).state);
    }
  }

  lemma QueueIsTidy(names: Naming, s: State, env: Envelope, createWaiter: bool, now: int)
    requires Inv(s) && Named(names, s) && NamedEnvelope(names, env) && (env.kind.TaskMessage? || TaskIsKnown(names, s.board, env))
    ensures Tidy(names, s, Queue(s, env, createWaiter, now).state)
  {
    hide UpsertTask, Touch, ReplyFuture, Inv, BoardNamed, TalksNamed, SessionsNamed, Key, IsUsable, NoGrants, NamedEnvelope, UpsertFails, WorkNamed, IsTalk, PutMessage;
    BoardIsOK(s);
    UpsertKeepsNames(names, s.board, env, MessageStatus.Queued, now);
    UpsertGrantsNothing(s.board, env, MessageStatus.Queued, now);
    NamedIsApart(names, env);
    TouchKeepsNames(names, s.talks, env, FirstTalkStatus(env));
    TidyReflexive(names, s);
    var n := Queue(s, env, createWaiter, now).state;
    assert NoGrants(s.board, n.board);
    GrantlessIsQuiet(s.board, n.board);
    SessionsNamedStays(names, s.registry, s.board, n.board);
    QueuedTaskIsKnown(names, s, env, createWaiter, now);
    PutNamedMessage(names, s.work, s.board, n.board, Message(env, FirstStatus(env), now));
  }

  lemma NamedIsApart(names: Naming, env: Envelope)
    requires NamedEnvelope(names, env)
    ensures env.project == names.project && env.conversation !in names.tasks
  {
  }

  lemma QueuedTaskIsKnown(names: Naming, s: State, env: Envelope, createWaiter: bool, now: int)
    requires Inv(s) && NamedEnvelope(names, env) && BoardNamed(names, s.board)
    requires env.kind.TaskMessage? || TaskIsKnown(names, s.board, env)
    ensures TaskIsKnown(names, Queue(s, env, createWaiter, now).state.board, env)
  {
    hide Touch, ReplyFuture, Key, IsUsable, PutMessage, Inv, Quiet, BoardOK;
    BoardIsOK(s);
  }

  lemma PutNamedMessage(names: Naming, w: Work, b: Board, m: Board, x: Message)
    requires WorkNamed(names, w, b) && Quiet(b, m) && NamedEnvelope(names, x.env) && TaskIsKnown(names, m, x.env)
    ensures WorkNamed(names, PutMessage(w, x), m)
  {
    hide Key, IsUsable;
  }

  lemma SamePartsAreTidy(names: Naming, s: State, n: State)
    requires Named(names, s) && n.work == s.work && n.board == s.board && n.talks == s.talks && n.registry == s.registry
    ensures Tidy(names, s, n)
  {
    hide WorkNamed, BoardNamed, TalksNamed, SessionsNamed;
    TidyReflexive(names, s);
  }

  lemma SessionCallIsTidy(names: Naming, cfg: Config, s: State, op: Op, now: int)
    requires Inv(s) && Named(names, s) && ChangesSessions(op)
    ensures Tidy(names, s, Act(cfg, s, op, now).state)
  {
    hide Inv, WorkNamed, BoardNamed, TalksNamed, ItemsFinished, EndSession, ExpireSessions, SettleAgent, NoGrants;
    TidyReflexive(names, s);
    match op {
      case DoAcquire(c) => NoItems(names, s.board);
      case DoHeartbeatSession(lease, scope, worker) =>
      case DoReleaseSession(lease, scope) =>
        if SessionFor(s, lease, scope).Some? {
          EndSessionIsTidy(names, s, lease, Released, now);
        }
      case DoExpireSessions => ExpiriesAreTidy(names, cfg, s, s.registry.order, now);
    }
  }

  predicate MovesLeases(op: Op) {
    op.DoDeliver? || op.DoHeartbeatJob? || op.DoReclaimJob?
  }

  /** Apart from deliveries and lease calls, every lawful call is tidy. */
  lemma ActIsTidy(names: Naming, cfg: Config, s: State, op: Op, now: int)
    requires Inv(s) && Named(names, s) && Lawful(names, s, op) && !MovesLeases(op)
    ensures Tidy(names, s, Act(cfg, s, op, now).state)
  {
    hide Inv, Named, NoGrants;
    hide SaveReply, UpdateStatus, RecordActivity, CancelWork, CloseConversation, TranscriptFence, RecordTelemetry, TimeoutReply, Queue, Refusal;
    hide Acquire, HeartbeatSession, ReleaseSession, ExpireSessions, StaleLeases, PrepareTaskWait, NamedEnvelope, TaskIsKnown;
    TidyReflexive(names, s);
    match op {
      case DoEnqueue(env, createWaiter) => QueueIsTidy(names, s, env, createWaiter, now);
      case DoSaveReply(message, env, claim, lease) => SaveReplyIsTidy(names, s, op, now);
      case DoUpdateStatus(message, status, lease) => UpdateStatusIsTidy(names, s, message, status, lease, now);
      case DoRecordActivity(activity) => RecordActivityIsTidy(names, s, activity, now);
      case DoCancelWork(item, scope) => CancelIsTidy(names, s, item, scope, now);
      case DoCloseConversation(conversation, env) => CloseIsTidy(names, s, conversation, env);
      case DoAppendTranscript(_, _, _, _, _) => FenceKeepsState(s, op);
      case DoRecordTelemetry(_, _, _, _, _, _) =>
        FenceKeepsState(s, op);
        SamePartsAreTidy(names, s, Act(cfg, s, op, now).state);
      case DoTimeoutReply(correlation) => TimeoutReplyIsTidy(names, s, correlation, now);
      case DoPrepareTaskWait(task, scope) =>
        WaitPreparationIsApart(s, task, scope);
        SamePartsAreTidy(names, s, Act(cfg, s, op, now).state);
      case _ =>
        if ChangesSessions(op) {
          SessionCallIsTidy(names, cfg, s, op, now);
        } else {
          SamePartsAreTidy(names, s, Act(cfg, s, op, now).state);
        }
    }
  }

  lemma WaitPreparationIsApart(s: State, task: Id, scope: Option<Id>)
    ensures var n := PrepareTaskWait(s, task, scope).state; n == s.(waits := n.waits)
  {
  }

  lemma StoreLeaseIsNamed(names: Naming, s: State, key: Id, status: JobStatus, lease: Lease)
    requires Named(names, s) && BoardOK(s.board) && key in s.board.jobs && !IsTerminal(s.board.jobs[key].status) && IsUsable(lease.holder)
    ensures Named(names, StoreLease(s, key, status, lease))
  {
    hide IsUsable, Key, TalksNamed;
  }

  lemma LeaseCallsAreNamed(names: Naming, s: State, op: Op, now: int)
    requires Inv(s) && Named(names, s) && Lawful(names, s, op)
    ensures op.DoHeartbeatJob? ==> Named(names, HeartbeatJob(s, op.task, op.holder, op.epoch, op.scope, op.heartbeatMs, now).state)
    ensures op.DoReclaimJob? ==> Named(names, ReclaimJob(s, op.task, op.holder, op.scope, now).state)
  {
    hide Inv, StoreLease, FindJob, Renew, Reclaim, WorkNamed, TalksNamed, SessionsNamed, IsUsable, Key, BoardOK;
    BoardIsOK(s);
    JobsAreShaped(s);
    if op.DoHeartbeatJob? || op.DoReclaimJob? {
      FoundJobIsStored(s.board, op.task, op.scope);
      var found := FindJob(s.board, op.task, op.scope);
      if found.Some? && s.board.jobs[found.value].lease.Some? {
        var job := s.board.jobs[found.value];
        if op.DoHeartbeatJob? {
          RenewKeepsHolder(job.lease.value, op.heartbeatMs, now);
          StoreLeaseIsNamed(names, s, found.value, job.status, Renew(job.lease.value, op.heartbeatMs, now));
        } else {
          ReclaimRaisesEpoch(job.lease.value, op.holder, now);
          StoreLeaseIsNamed(names, s, found.value, JobStatus.Running, Reclaim(job.lease.value, op.holder, now));
        }
      }
    }
  }

  /** Every lawful call keeps the names in order. */
  lemma ActIsNamed(names: Naming, cfg: Config, s: State, op: Op, now: int)
    requires Inv(s) && Named(names, s) && Lawful(names, s, op)
    ensures Named(names, Act(cfg, s, op, now).state)
  {
    hide Inv, Named, Lawful, NoGrants, Deliver, HeartbeatJob, ReclaimJob;
    if MovesLeases(op) {
      LeaseCallsAreNamed(names, s, op, now);
      if op.DoDeliver? {
        DeliverIsNamed(names, s, op.agent, op.scope, op.lease, op.env, now);
      }
    } else {
      hide Act;
      ActIsTidy(names, cfg, s, op, now);
    }
  }
}

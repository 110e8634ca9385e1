/** What the broker's operations answer and store, in the words of their callers. */
module BrokerAnswers {
  import opened Basics
  import opened Jobs
  import opened BrokerState
  import opened BrokerOps
  import opened BrokerInvariants
  import opened BrokerActs
  import opened BrokerOutcomes

  // ---------------------------------------------------------------------
  // Keys
  // ---------------------------------------------------------------------

  /** A stored key ends in a colon and the id, or is the id itself. */
  predicate IsKeyFor(key: Id, id: Id) {
    key == id || (|key| > |id| && key[|key| - |id| - 1] == ':' && key[|key| - |id|..] == id)
  }

  lemma NamesIsKeyFor(key: Id, id: Id)
    ensures Names(key, id) <==> IsKeyFor(key, id)
  {
    var suffix := [':'] + id;
    if |suffix| <= |key| {
      var tail := key[|key| - |suffix|..];
      assert tail == [tail[0]] + tail[1..];
      assert tail[1..] == key[|key| - |id|..];
      assert tail[0] == key[|key| - |id| - 1];
    }
  }

  /** A project's key for an id is found by the bare id, and tells the project. */
  lemma KeysAreFound(project: Id, other: Id, id: Id)
    ensures IsKeyFor(Key(project, id), id)
    ensures Key(project, id) == Key(other, id) ==> project == other
  {
    assert Key(project, id)[..|project|] == project;
    assert Key(other, id)[..|other|] == other;
  }

  // ---------------------------------------------------------------------
  // Waiting for a task
  // ---------------------------------------------------------------------

  /** The kept results an id names. */
  ghost predicate IsKeptFor(w: Waits, id: Id, key: Id) {
    key in w.results && IsKeyFor(key, id)
  }

  /** A wait that could not be answered is a new pending future, listed last under its key. */
  ghost predicate IsRegistered(s: State, e: Effect, key: Id, scoped: bool) {
    && e.outcome == Waiting(|s.waits.futures|)
    && e.state.waits.futures == s.waits.futures + [Future(TaskWait(key, scoped), FutureState.Pending)]
    && key in e.state.waits.waiters
    && e.state.waits.waiters[key] == (if key in s.waits.waiters then s.waits.waiters[key] else []) + [|s.waits.futures|]
    && (forall k :: k != key ==> (k in e.state.waits.waiters <==> k in s.waits.waiters))
    && (forall k :: k != key && k in s.waits.waiters ==> e.state.waits.waiters[k] == s.waits.waiters[k])
    && e.state == s.(waits := s.waits.(futures := e.state.waits.futures, waiters := e.state.waits.waiters))
  }

  /** A wait scoped to a project is answered with the kept result, fails for an unknown task, or waits. */
  lemma ScopedWaitDecides(s: State, task: Id, project: Id)
    ensures var e := PrepareTaskWait(s, task, Some(project));
            var key := Key(project, task);
            if key in s.waits.results then e == Effect(s, Known(s.waits.results[key]))
            else if key !in s.board.tasks then e == Effect(s, Missing)
            else IsRegistered(s, e, key, true)
  {
    hide Key, IsOnlyResult;
  }

  /** The one kept result whose key names the id. */
  ghost predicate IsTheOneKept(w: Waits, id: Id, key: Id) {
    IsKeptFor(w, id, key) && forall k :: IsKeptFor(w, id, k) ==> k == key
  }

  lemma TheOneKept(w: Waits, id: Id, key: Id)
    ensures IsOnlyResult(w, id, key) <==> IsTheOneKept(w, id, key)
  {
    forall k
      ensures k in w.results && Names(k, id) <==> IsKeptFor(w, id, k)
    {
      NamesIsKeyFor(k, id);
    }
    hide Names, IsKeptFor;
  }

  /** A bare wait is answered exactly when one kept result's key names the id; otherwise it waits under the id. */
  lemma BareWaitDecides(s: State, task: Id)
    ensures var e := PrepareTaskWait(s, task, None);
            && (forall k :: IsTheOneKept(s.waits, task, k) ==> k in s.waits.results && e == Effect(s, Known(s.waits.results[k])))
            && ((forall k :: !IsTheOneKept(s.waits, task, k)) ==> IsRegistered(s, e, task, false))
  {
    forall k
      ensures IsOnlyResult(s.waits, task, k) <==> IsTheOneKept(s.waits, task, k)
      ensures IsTheOneKept(s.waits, task, k) ==> k in s.waits.results && forall j :: IsTheOneKept(s.waits, task, j) ==> j == k
    {
      TheOneKept(s.waits, task, k);
    }
    hide IsOnlyResult, IsTheOneKept, IsKeptFor;
  }

  predicate IsListedUnder(w: Waits, key: Id, f: nat) {
    key in w.waiters && f in w.waiters[key]
  }

  /** Cleaning up takes the caller's own future off its list, and drops a list only when it is empty. */
  lemma CleaningDelists(s: State, key: Id, f: nat)
    ensures var n := CleanupTaskWaiter(s, key, f).state;
            && n == s.(waits := s.waits.(waiters := n.waits.waiters))
            && (forall k, x :: IsListedUnder(n.waits, k, x) <==> IsListedUnder(s.waits, k, x) && !(k == key && x == f))
            && !(key in n.waits.waiters && n.waits.waiters[key] == [])
  {
  }

  /** Callers of one correlation share one future, which only its own caller can drop. */
  lemma ReplyWaitsAreShared(s: State, correlation: Id, f: nat)
    ensures var e := PrepareReplyWait(s, correlation);
            if correlation in s.waits.replies then e == Effect(s, Waiting(s.waits.replies[correlation]))
            else
              && e.outcome == Waiting(|s.waits.futures|)
              && e.state.waits.futures == s.waits.futures + [Future(ReplyWait(correlation), FutureState.Pending)]
              && e.state.waits.replies == s.waits.replies[correlation := |s.waits.futures|]
    ensures var n := CleanupReplyWaiter(s, correlation, f).state;
            n == if correlation in s.waits.replies && s.waits.replies[correlation] == f
                 then s.(waits := s.waits.(replies := s.waits.replies - {correlation})) else s
  {
  }

  /** Giving up a wait abandons that future if it is pending, and nothing else. */
  lemma AbandoningEndsOne(s: State, f: nat)
    ensures var n := AbandonWait(s, f).state;
            && n == s.(waits := s.waits.(futures := n.waits.futures)) && |n.waits.futures| == |s.waits.futures|
            && forall g :: 0 <= g < |s.waits.futures| ==>
                 n.waits.futures[g] == if g == f && s.waits.futures[g].state.Pending? then s.waits.futures[g].(state := Abandoned) else s.waits.futures[g]
  {
  }

  // ---------------------------------------------------------------------
  // Replies
  // ---------------------------------------------------------------------

  predicate ReportsFailure(reply: Envelope) {
    reply.status.Failed? || reply.status.Timeout? || reply.status.Cancelled?
  }

  /** Whoever asserts an epoch for a task that is leased has to be the holder at that epoch. */
  predicate IsFenced(b: Board, project: Id, task: Id, a: Assertion) {
    var key := Key(project, task);
    && task != [] && a.Asserted? && key in b.jobs && b.jobs[key].lease.Some?
    && (b.jobs[key].lease.value.holder != a.holder || b.jobs[key].lease.value.epoch != a.epoch)
  }

  predicate SessionIsCurrent(r: Registry, agent: Id, project: Id, lease: Id) {
    lease in r.byLease && r.byLease[lease].status.Active? && r.byLease[lease].agent == agent && r.byLease[lease].project == project
  }

  /** When a reply raises, when it comes too late, and when it counts; only the last changes anything. */
  lemma ReplyAnswers(s: State, messageId: Id, reply: Envelope, a: Assertion, lease: Id, now: int)
    ensures var e := SaveReply(s, messageId, reply, a, lease, now);
            var ended := messageId in s.work.byId && (s.work.byId[messageId].status.Timeout? || s.work.byId[messageId].status.Cancelled?);
            if lease != [] && !SessionIsCurrent(s.registry, reply.sender, reply.project, lease) then e == Effect(s, Raised(LeaseConflict))
            else if IsFenced(s.board, reply.project, reply.task, a) then e == Effect(s, Raised(LeaseConflict))
            else if ended then e == Effect(s, ReplyIgnored)
            else e.outcome.Accepted?
  {
    hide Key, Replied;
  }

  /** The ending a reply gives: its message and its task's result, and the job of its task unless that had finished. */
  ghost predicate LeavesEnding(s: State, n: State, messageId: Id, reply: Envelope, ending: MessageStatus) {
    && (messageId in s.work.byId ==> messageId in n.work.byId && n.work.byId[messageId] == s.work.byId[messageId].(status := ending))
    && (forall id :: id != messageId ==> (id in n.work.byId <==> id in s.work.byId))
    && (forall id :: id != messageId && id in s.work.byId ==> n.work.byId[id] == s.work.byId[id])
    && (reply.task != [] ==>
          && Key(reply.project, reply.task) in n.waits.results
          && n.waits.results[Key(reply.project, reply.task)] == TaskResult(ending, reply.project, reply.task))
  }

  ghost predicate JobEnds(s: State, n: State, reply: Envelope, ending: JobStatus) {
    var key := Key(reply.project, reply.task);
    reply.task != [] ==>
      && (key in s.board.jobs ==>
            && key in n.board.jobs
            && n.board.jobs[key].status == if IsTerminal(s.board.jobs[key].status) then s.board.jobs[key].status else ending)
      && (key !in s.board.jobs && reply.kind.TaskMessage? ==> key in n.board.jobs && n.board.jobs[key].status == ending)
  }

  /**
   * An accepted reply that is no chat close and reports no failure leaves the answered message, the
   * result and an unfinished job of its task done; one that reports a failure, a timeout or a
   * cancellation leaves them failed; and a chat close leaves message and result closed and the job as it is.
   */
  lemma ReplyDecides(s: State, messageId: Id, reply: Envelope, a: Assertion, lease: Id, now: int)
    requires Inv(s) && SaveReply(s, messageId, reply, a, lease, now).outcome.Accepted?
    ensures var n := SaveReply(s, messageId, reply, a, lease, now).state;
            && (!reply.kind.ChatClose? && !ReportsFailure(reply) ==>
                  LeavesEnding(s, n, messageId, reply, MessageStatus.Done) && JobEnds(s, n, reply, JobStatus.Done))
            && (!reply.kind.ChatClose? && ReportsFailure(reply) ==>
                  LeavesEnding(s, n, messageId, reply, MessageStatus.Failed) && JobEnds(s, n, reply, JobStatus.Failed))
            && (reply.kind.ChatClose? ==>
                  && LeavesEnding(s, n, messageId, reply, MessageStatus.Closed)
                  && (reply.task != [] && Key(reply.project, reply.task) in s.board.jobs ==>
                        && Key(reply.project, reply.task) in n.board.jobs
                        && n.board.jobs[Key(reply.project, reply.task)].status == s.board.jobs[Key(reply.project, reply.task)].status))
  {
    hide Inv, Key, HoldsLease, ReplyIsStale, UpsertTask, Touch, SettleWaits;
    WaitsAreOK(s);
    ReplyWakesWaiters(s.waits, reply, ReplyStatus(reply));
    JobsAreShaped(s);
    if reply.task != [] {
      JobIsAsked(s.board, reply, ReplyStatus(reply), now);
      if JobFor(s.board, reply).Some? {
        JobIsEnded(JobFor(s.board, reply).value, ReplyStatus(reply));
      }
    }
  }

  lemma WaitsAreOK(s: State)
    requires Inv(s)
    ensures WaitsOK(s.waits)
  {
  }

  /** Where a job follows its message. */
  lemma JobIsAsked(b: Board, env: Envelope, status: MessageStatus, now: int)
    ensures var n := UpsertTask(b, env, status, now);
            var key := Key(env.project, env.task);
            JobFor(b, env).Some? && Transition(JobFor(b, env).value, status).Ok? ==>
              key in n.jobs && n.jobs[key].status == Transition(JobFor(b, env).value, status).value.status
  {
    hide Key, Transition, FreshLease;
  }

  lemma JobIsEnded(job: Job, status: MessageStatus)
    requires !job.status.Reclaimable?
    ensures var r := Transition(job, status);
            && (status.Done? || status.Completed? ==> r.Ok? && r.value.status == if IsTerminal(job.status) then job.status else JobStatus.Done)
            && (status.Failed? ==> r.Ok? && r.value.status == if IsTerminal(job.status) then job.status else JobStatus.Failed)
            && (status.Timeout? ==> r.Ok? && r.value.status == if IsTerminal(job.status) then job.status else JobStatus.Timeout)
            && (status.Cancelled? ==> r.Ok? && r.value.status == if IsTerminal(job.status) then job.status else JobStatus.Cancelled)
            && (status.Closed? ==> r.Ok? && r.value.status == job.status)
  {
  }

  // ---------------------------------------------------------------------
  // Admission
  // ---------------------------------------------------------------------

  predicate HasEnded(status: MessageStatus) {
    status.Done? || status.Completed? || status.Failed? || status.Timeout? || status.Cancelled? || status.Closed?
  }

  lemma BusyHasNotEnded(status: MessageStatus)
    ensures IsBusy(status) <==> !HasEnded(status)
  {
  }

  /** The statuses a job ends in are those no move leads out of. */
  lemma TerminalIffNoMoves(status: JobStatus)
    ensures IsTerminal(status) <==> Allowed(status) == {}
  {
    if !IsTerminal(status) {
      assert JobStatus.Cancelled in Allowed(status);
    }
  }

  predicate TargetIsOnline(r: Registry, agent: Id, project: Id) {
    exists l :: l in r.byLease && SessionIsCurrent(r, agent, project, l)
  }

  predicate TargetIsBusy(w: Work, env: Envelope) {
    exists id :: id in w.byId && w.byId[id].env.project == env.project && w.byId[id].env.target == env.target && !HasEnded(w.byId[id].status)
  }

  /** The target takes part in another open conversation of the project. */
  predicate TargetIsTalking(t: Talks, env: Envelope) {
    exists k :: k in t.conversations && t.conversations[k].project == env.project && t.conversations[k].status.Open?
                && env.target in t.conversations[k].participants && t.conversations[k].id != env.conversation
  }

  lemma TargetReadings(s: State, env: Envelope)
    ensures HasActiveSession(s.registry, env.target, Some(env.project)) <==> TargetIsOnline(s.registry, env.target, env.project)
    ensures (exists id :: id in s.work.byId && BlocksTarget(s.work.byId[id], env)) <==> TargetIsBusy(s.work, env)
    ensures (exists k :: k in s.talks.conversations && ConversationBlocks(s.talks.conversations[k], env)) <==> TargetIsTalking(s.talks, env)
  {
    forall id | id in s.work.byId
      ensures BlocksTarget(s.work.byId[id], env) <==>
              s.work.byId[id].env.project == env.project && s.work.byId[id].env.target == env.target && !HasEnded(s.work.byId[id].status)
    {
      BusyHasNotEnded(s.work.byId[id].status);
    }
    forall l | l in s.registry.byLease
      ensures IsActiveFor(s.registry.byLease[l], env.target, Some(env.project)) <==> SessionIsCurrent(s.registry, env.target, env.project, l)
    {
    }
    hide SessionIsCurrent, IsActiveFor, BlocksTarget, HasEnded;
  }

  /**
   * Why an enqueue is refused, in this order, changing nothing: a turn or reply of a conversation that is
   * unknown, not open or at its last turn; work for a worker that is offline, busy, or, for a task or a
   * new conversation, in another open conversation. Everything else is stored.
   */
  lemma EnqueueAnswers(cfg: Config, s: State, env: Envelope, createWaiter: bool, now: int)
    ensures var e := Enqueue(cfg, s, env, createWaiter, now);
            var talk := Key(env.project, env.conversation);
            var isTurn := env.kind.ChatTurn? || env.kind.ChatReply?;
            var isWork := env.kind.TaskMessage? || env.kind.ChatStart? || env.kind.ChatTurn? || env.kind.ChatClose?;
            if isTurn && talk !in s.talks.conversations then e == Effect(s, Raised(NotFound))
            else if isTurn && (!s.talks.conversations[talk].status.Open? || s.talks.conversations[talk].turn >= s.talks.conversations[talk].maxTurns)
            then e == Effect(s, Raised(ConversationClosed))
            else if isWork && cfg.requirePeers && env.target != [] && !TargetIsOnline(s.registry, env.target, env.project)
            then e == Effect(s, Raised(PeerOffline))
            else if isWork && TargetIsBusy(s.work, env) then e == Effect(s, Raised(Busy))
            else if (env.kind.TaskMessage? || env.kind.ChatStart?) && TargetIsTalking(s.talks, env) then e == Effect(s, Raised(Busy))
            else env.id in e.state.work.byId && (e.outcome.Accepted? || e.outcome == Raised(IllegalTransition))
  {
    TargetReadings(s, env);
    hide Key, HasActiveSession, BlocksTarget, ConversationBlocks, TargetIsOnline, TargetIsBusy, TargetIsTalking, UpsertTask, UpsertFails, Touch, ReplyFuture;
  }

  /** An accepted message is stored as queued (a chat close as closed) at this instant; only its sender may get a new reply wait. */
  lemma EnqueueStores(cfg: Config, s: State, env: Envelope, createWaiter: bool, now: int)
    requires Enqueue(cfg, s, env, createWaiter, now).outcome.Accepted?
    ensures var n := Enqueue(cfg, s, env, createWaiter, now).state;
            && env.id in n.work.byId
            && n.work.byId[env.id] == Message(env, if env.kind.ChatClose? then MessageStatus.Closed else MessageStatus.Queued, now)
            && (forall id :: id != env.id ==> (id in n.work.byId <==> id in s.work.byId))
            && (forall id :: id != env.id && id in s.work.byId ==> n.work.byId[id] == s.work.byId[id])
            && (if createWaiter && env.requiresReply && env.correlation !in s.waits.replies then
                  && env.correlation in n.waits.replies && n.waits.replies[env.correlation] == |s.waits.futures|
                  && n.waits.futures == s.waits.futures + [Future(ReplyWait(env.correlation), FutureState.Pending)]
                else n.waits == s.waits)
  {
    hide Key, Refusal, UpsertTask, UpsertFails, Touch;
  }

  /** A task enqueued for the first time has a queued job without a lease; a later message leaves the job's status. */
  lemma EnqueueQueuesTask(cfg: Config, s: State, env: Envelope, createWaiter: bool, now: int)
    requires Inv(s) && Enqueue(cfg, s, env, createWaiter, now).outcome.Accepted? && env.kind.TaskMessage? && env.task != []
    ensures var n := Enqueue(cfg, s, env, createWaiter, now).state;
            var key := Key(env.project, env.task);
            && key in n.board.jobs && key in n.board.tasks
            && (key !in s.board.jobs ==> n.board.jobs[key] == Job(env.task, env.project, JobStatus.Queued, None))
            && (key in s.board.jobs && !s.board.jobs[key].status.Created? ==> n.board.jobs[key] == s.board.jobs[key])
            && (forall k :: k != key ==> (k in n.board.jobs <==> k in s.board.jobs))
            && (forall k :: k != key && k in s.board.jobs ==> n.board.jobs[k] == s.board.jobs[k])
  {
    hide Key, Refusal, Touch, ReplyFuture, Inv, FreshLease;
    JobsAreShaped(s);
    AskedToQueue(JobFor(s.board, env).value);
  }

  // ---------------------------------------------------------------------
  // Conversations
  // ---------------------------------------------------------------------

  /** The status a talk message gives its conversation, asked for one or for none. */
  function TalkEnding(env: Envelope, asked: Option<ConversationStatus>, before: ConversationStatus): ConversationStatus {
    if env.kind.ChatClose? || (env.kind.ChatReply? && env.turn >= env.maxTurns) then ConversationStatus.Closed
    else if asked.Some? then asked.value else before
  }

  /** A talk job runs while its conversation is open and ends the way it ends. */
  predicate JobOfTalk(job: JobStatus, talk: ConversationStatus) {
    match talk
    case Open => job.Running?
    case Closed => job.Closed?
    case Timeout => job.Timeout?
    case Failed => job.Failed?
    case Cancelled => job.Cancelled?
  }

  predicate TookPart(t: Talks, key: Id, agent: Id) {
    key in t.conversations && agent in t.conversations[key].participants
  }

  /** What a talk message stores about its conversation: its own turn and limit, a status, and a job that follows. */
  predicate IsRecorded(t: Talks, n: Talks, env: Envelope, asked: Option<ConversationStatus>) {
    var key := Key(env.project, env.conversation);
    && key in n.conversations && key in n.jobs
    && n.conversations[key].turn == env.turn && n.conversations[key].maxTurns == env.maxTurns
    && n.conversations[key].status == TalkEnding(env, asked, if key in t.conversations then t.conversations[key].status else Open)
    && (if key in t.jobs && IsTerminal(t.jobs[key].status) then n.jobs[key].status == t.jobs[key].status
        else JobOfTalk(n.jobs[key].status, n.conversations[key].status))
  }

  /** Both its parties take part from then on, and no other conversation changes. */
  ghost predicate IsTouched(t: Talks, n: Talks, env: Envelope, asked: Option<ConversationStatus>) {
    var key := Key(env.project, env.conversation);
    && IsRecorded(t, n, env, asked)
    && (forall p :: p in n.conversations[key].participants <==> TookPart(t, key, p) || (p != [] && (p == env.sender || p == env.target)))
    && (forall k :: k != key ==> (k in n.conversations <==> k in t.conversations))
    && (forall k :: k != key && k in t.conversations ==> n.conversations[k] == t.conversations[k])
  }

  lemma TouchedIsRecorded(t: Talks, n: Talks, env: Envelope, asked: Option<ConversationStatus>)
    requires IsTouched(t, n, env, asked)
    ensures IsRecorded(t, n, env, asked)
  {
  }

  lemma TouchDecides(t: Talks, env: Envelope, asked: Option<ConversationStatus>)
    requires TalksOK(t) && env.conversation != [] && (env.kind.ChatStart? || env.kind.ChatTurn? || env.kind.ChatReply? || env.kind.ChatClose?)
    ensures IsTouched(t, Touch(t, env, asked), env, asked)
  {
    TouchStores(t, env, asked);
    NextTakesPart(t, env, asked);
    hide Key, Touch, TookPart, TransitionTalkJob, WithParticipant, TalkJobFor;
  }

  lemma TouchStores(t: Talks, env: Envelope, asked: Option<ConversationStatus>)
    requires TalksOK(t) && env.conversation != [] && IsTalk(env.kind)
    ensures var n := Touch(t, env, asked);
            var key := Key(env.project, env.conversation);
            && n.conversations == t.conversations[key := NextConversation(t, env, asked)]
            && key in n.jobs
            && (if key in t.jobs && IsTerminal(t.jobs[key].status) then n.jobs[key].status == t.jobs[key].status
                else JobOfTalk(n.jobs[key].status, NextConversation(t, env, asked).status))
  {
    hide Key, TransitionTalkJob, NextConversation;
    TalkTransitionIsTotal(TalkJobFor(t, env), NextConversation(t, env, asked).status);
  }

  lemma NextTakesPart(t: Talks, env: Envelope, asked: Option<ConversationStatus>)
    ensures var next := NextConversation(t, env, asked);
            forall p :: p in next.participants <==>
                        TookPart(t, Key(env.project, env.conversation), p) || (p != [] && (p == env.sender || p == env.target))
  {
    hide Key;
    var base := BaseConversation(t, env);
    Joins(base.participants, env.sender);
    Joins(WithParticipant(base.participants, env.sender), env.target);
    hide WithParticipant;
  }

  lemma Joins(participants: seq<Id>, agent: Id)
    ensures forall p :: p in WithParticipant(participants, agent) <==> p in participants || (p != [] && p == agent)
  {
  }

  predicate IsTalkMessage(env: Envelope) {
    env.conversation != [] && (env.kind.ChatStart? || env.kind.ChatTurn? || env.kind.ChatReply? || env.kind.ChatClose?)
  }

  lemma TalksAreFine(s: State)
    requires Inv(s)
    ensures TalksOK(s.talks)
  {
  }

  /** An accepted talk message leaves an open conversation open at the message's turn, or closes it. */
  lemma EnqueueTalks(cfg: Config, s: State, env: Envelope, createWaiter: bool, now: int)
    requires Inv(s) && Enqueue(cfg, s, env, createWaiter, now).outcome.Accepted? && IsTalkMessage(env)
    ensures IsTouched(s.talks, Enqueue(cfg, s, env, createWaiter, now).state.talks, env,
                      if env.kind.ChatClose? then Some(ConversationStatus.Closed) else None)
  {
    TalksAreFine(s);
    TouchDecides(s.talks, env, FirstTalkStatus(env));
    hide Key, Refusal, UpsertTask, UpsertFails, Touch, ReplyFuture, Inv, IsTouched;
  }

  /** An accepted talk reply leaves its conversation open, unless it reports a failure, closes it, or takes the last turn. */
  lemma ReplyTalks(s: State, messageId: Id, reply: Envelope, a: Assertion, lease: Id, now: int)
    requires Inv(s) && SaveReply(s, messageId, reply, a, lease, now).outcome.Accepted? && IsTalkMessage(reply)
    ensures IsTouched(s.talks, SaveReply(s, messageId, reply, a, lease, now).state.talks, reply,
                      Some(if ReportsFailure(reply) then ConversationStatus.Failed else Open))
  {
    hide Key, HoldsLease, ReplyIsStale, UpsertTask, Touch, SettleWaits, Inv;
    TalksAreFine(s);
    TouchDecides(s.talks, reply, Some(TalkStatusOf(ReplyStatus(reply))));
  }

  /** At its turn limit a conversation takes no more turns: a reply at the limit closes it, and a turn at the limit is the last. */
  lemma LastTurnIsLast(cfg: Config, s: State, env: Envelope, createWaiter: bool, now: int, next: Envelope, later: int)
    requires Inv(s) && Enqueue(cfg, s, env, createWaiter, now).outcome.Accepted? && IsTalkMessage(env) && env.turn >= env.maxTurns
    requires (next.kind.ChatTurn? || next.kind.ChatReply?) && next.project == env.project && next.conversation == env.conversation
    ensures var n := Enqueue(cfg, s, env, createWaiter, now).state;
            Enqueue(cfg, n, next, createWaiter, later) == Effect(n, Raised(ConversationClosed))
  {
    EnqueueTalks(cfg, s, env, createWaiter, now);
    var n := Enqueue(cfg, s, env, createWaiter, now).state;
    EnqueueAnswers(cfg, n, next, createWaiter, later);
    hide Enqueue, Key, Inv;
  }
}

/** What every broker operation does to the state, including the changes made before it raises. */
module BrokerOps {
  import opened Basics
  import opened Jobs
  import opened BrokerState

  datatype Error = NotFound | Busy | PeerOffline | ConversationClosed | LeaseConflict | IllegalTransition | TelemetryRejected

  datatype Outcome =
    | Accepted
    | Delivery(task: Id, granted: Option<Lease>)
    | Skipped
    | ReplyIgnored
    | CancelledItems(items: seq<Id>)
    | Ended(settled: seq<Id>)
    | ExpiredSessions(leases: seq<Id>)
    | LeaseRenewed(lease: Lease)
    | LeaseReclaimed(lease: Lease, reclaimed: bool)
    | Waiting(future: nat)
    | Known(result: TaskResult)
    | Missing
    | Raised(error: Error)

  datatype Effect = Effect(state: State, outcome: Outcome)

  function Fail(s: State, error: Error): Effect {
    Effect(s, Raised(error))
  }

  // ---------------------------------------------------------------------
  // Sweep: expired sessions first, then timed-out messages
  // ---------------------------------------------------------------------

  predicate ConcernsAgent(m: Message, agent: Id, project: Id) {
    m.env.project == project && (m.env.sender == agent || m.env.target == agent) && IsBusy(m.status)
  }

  datatype Settlement = Settlement(state: State, items: seq<Id>)

  /** Cancel one message if it is busy work of the agent. */
  function SettleOne(s: State, id: Id, agent: Id, project: Id, now: int): Settlement {
    if id in s.work.byId && ConcernsAgent(s.work.byId[id], agent, project)
    then Settlement(Settle(s, id, MessageStatus.Cancelled, now), SettledIds(s.work.byId[id].env))
    else Settlement(s, [])
  }

  /** Cancel the busy work of an agent that went offline, message by message. */
  function SettleAgent(s: State, ids: seq<Id>, agent: Id, project: Id, now: int): Settlement {
    if ids == [] then Settlement(s, [])
    else
      var before := SettleAgent(s, ids[..|ids| - 1], agent, project, now);
      var last := SettleOne(before.state, ids[|ids| - 1], agent, project, now);
      Settlement(last.state, before.items + last.items)
  }

  function Grace(cfg: Config, x: Session): int {
    1000 * (if x.graceSeconds != 0 then x.graceSeconds else cfg.graceSeconds)
  }

  predicate IsStale(cfg: Config, x: Session, now: int) {
    x.status.Active? && now - x.lastSeen >= Grace(cfg, x)
  }

  function EndSession(s: State, lease: Id, status: SessionStatus, now: int): State
    requires lease in s.registry.byLease
  {
    var x := s.registry.byLease[lease];
    var settled := SettleAgent(s, s.work.order, x.agent, x.project, now);
    settled.state.(registry := settled.state.registry.(
      byLease := settled.state.registry.byLease[lease := x.(status := status, settled := settled.items)]))
  }

  function ExpireOne(cfg: Config, s: State, lease: Id, now: int): State {
    if lease in s.registry.byLease && IsStale(cfg, s.registry.byLease[lease], now)
    then EndSession(s, lease, Expired, now) else s
  }

  function ExpireSessions(cfg: Config, s: State, leases: seq<Id>, now: int): State {
    if leases == [] then s
    else ExpireOne(cfg, ExpireSessions(cfg, s, leases[..|leases| - 1], now), leases[|leases| - 1], now)
  }

  /** The sessions an expiry pass ends, in registry order. */
  function StaleLeases(cfg: Config, r: Registry, ids: seq<Id>, now: int): seq<Id> {
    if ids == [] then []
    else
      StaleLeases(cfg, r, ids[..|ids| - 1], now) +
      (if ids[|ids| - 1] in r.byLease && IsStale(cfg, r.byLease[ids[|ids| - 1]], now) then [ids[|ids| - 1]] else [])
  }

  predicate IsOverdue(m: Message, now: int) {
    IsBusy(m.status) && m.env.timeoutSeconds > 0 && now - m.createdAt >= 1000 * m.env.timeoutSeconds
  }

  function TimeoutOne(s: State, id: Id, now: int): State {
    if id in s.work.byId && IsOverdue(s.work.byId[id], now) then Settle(s, id, MessageStatus.Timeout, now) else s
  }

  function TimeoutMessages(s: State, ids: seq<Id>, now: int): State {
    if ids == [] then s else TimeoutOne(TimeoutMessages(s, ids[..|ids| - 1], now), ids[|ids| - 1], now)
  }

  function Sweep(cfg: Config, s: State, now: int): State {
    var expired := ExpireSessions(cfg, s, s.registry.order, now);
    TimeoutMessages(expired, expired.work.order, now)
  }

  // ---------------------------------------------------------------------
  // Sessions
  // ---------------------------------------------------------------------

  datatype AcquireCommand = AcquireCommand(lease: Id, project: Id, agent: Id, worker: Id, graceSeconds: int)

  predicate Conflicts(x: Session, c: AcquireCommand) {
    && x.project == c.project && x.status.Active? && x.lease != c.lease
    && (x.agent == c.agent || (c.worker != [] && x.worker == c.worker))
  }

  function Acquire(cfg: Config, s: State, c: AcquireCommand, now: int): Effect {
    if exists l :: l in s.registry.byLease && Conflicts(s.registry.byLease[l], c) then Fail(s, LeaseConflict)
    else
      var grace := if c.graceSeconds != 0 then c.graceSeconds else cfg.graceSeconds;
      Effect(s.(registry := PutSession(s.registry, Session(c.lease, c.project, c.agent, c.worker, Active, now, grace, []))), Accepted)
  }

  function SessionFor(s: State, lease: Id, project: Option<Id>): Option<Session> {
    if lease in s.registry.byLease && InProject(s.registry.byLease[lease], project) then Some(s.registry.byLease[lease]) else None
  }

  /** A heartbeat may rename the worker; an ended session is returned as it is. */
  function HeartbeatSession(s: State, lease: Id, project: Option<Id>, worker: Id, now: int): Effect {
    match SessionFor(s, lease, project)
    case None => Fail(s, NotFound)
    case Some(x) =>
      if !x.status.Active? then Effect(s, Accepted)
      else
        var beaten := x.(lastSeen := now, worker := if worker != [] then worker else x.worker);
        Effect(s.(registry := s.registry.(byLease := s.registry.byLease[lease := beaten])), Accepted)
  }

  function ReleaseSession(s: State, lease: Id, project: Option<Id>, now: int): Effect {
    match SessionFor(s, lease, project)
    case None => Fail(s, NotFound)
    case Some(x) =>
      if !x.status.Active? then Effect(s, Ended(x.settled))
      else
        var ended := EndSession(s, lease, Released, now);
        Effect(ended, Ended(SettleAgent(s, s.work.order, x.agent, x.project, now).items))
  }

  // ---------------------------------------------------------------------
  // Messages
  // ---------------------------------------------------------------------

  /** Why a talk turn or reply cannot enter its conversation, if so. */
  function ConversationRefusal(s: State, env: Envelope): Option<Error> {
    var key := Key(env.project, env.conversation);
    if !env.kind.ChatTurn? && !env.kind.ChatReply? then None
    else if key !in s.talks.conversations then Some(NotFound)
    else if !s.talks.conversations[key].status.Open? then Some(ConversationClosed)
    else if s.talks.conversations[key].turn >= s.talks.conversations[key].maxTurns then Some(ConversationClosed)
    else None
  }

  predicate BlocksTarget(m: Message, env: Envelope) {
    m.env.project == env.project && m.env.target == env.target && IsBusy(m.status)
  }

  predicate ConversationBlocks(c: Conversation, env: Envelope) {
    c.project == env.project && c.status.Open? && env.target in c.participants && c.id != env.conversation
  }

  /** Why the target worker cannot take this message, if so. */
  function TargetRefusal(cfg: Config, s: State, env: Envelope): Option<Error> {
    if !IsWorkerBound(env.kind) then None
    else if cfg.requirePeers && env.target != [] && !HasActiveSession(s.registry, env.target, Some(env.project)) then Some(PeerOffline)
    else if exists id :: id in s.work.byId && BlocksTarget(s.work.byId[id], env) then Some(Busy)
    else if env.kind.ChatTurn? || env.kind.ChatClose? then None
    else if exists k :: k in s.talks.conversations && ConversationBlocks(s.talks.conversations[k], env) then Some(Busy)
    else None
  }

  function Refusal(cfg: Config, s: State, env: Envelope): Option<Error> {
    if ConversationRefusal(s, env).Some? then ConversationRefusal(s, env) else TargetRefusal(cfg, s, env)
  }

  datatype Progress = Progress(state: State, failed: bool)

  /** A close message is stored closed, and closes its conversation. */
  function FirstStatus(env: Envelope): MessageStatus {
    if env.kind.ChatClose? then MessageStatus.Closed else MessageStatus.Queued
  }

  function FirstTalkStatus(env: Envelope): Option<ConversationStatus> {
    if env.kind.ChatClose? then Some(ConversationStatus.Closed) else None
  }

  /** The message is stored before its projections; a failing task transition leaves it stored without a waiter. */
  function Queue(s: State, env: Envelope, createWaiter: bool, now: int): Progress {
    var stored := s.(work := PutMessage(s.work, Message(env, FirstStatus(env), now)));
    if !IsTalk(env.kind) && UpsertFails(s.board, env, MessageStatus.Queued) then Progress(stored, true)
    else
      Progress(
        stored.(
          board := if IsTalk(env.kind) then s.board else UpsertTask(s.board, env, MessageStatus.Queued, now),
          talks := Touch(s.talks, env, FirstTalkStatus(env)),
          waits := if createWaiter && env.requiresReply then ReplyFuture(s.waits, env.correlation) else s.waits),
        false)
  }

  function Enqueue(cfg: Config, s: State, env: Envelope, createWaiter: bool, now: int): Effect {
    match Refusal(cfg, s, env)
    case Some(e) => Fail(s, e)
    case None =>
      var p := Queue(s, env, createWaiter, now);
      Effect(p.state, if p.failed then Raised(IllegalTransition) else Accepted)
  }

  /** Polling needs the current lease once the agent has an active session. */
  predicate PollRefused(s: State, agent: Id, project: Option<Id>, lease: Id) {
    HasActiveSession(s.registry, agent, project) && (lease == [] || !HoldsLease(s.registry, agent, project, lease))
  }

  /** Give a stored message a new status and project it; the status stays when the task cannot follow. */
  function Advanced(s: State, id: Id, status: MessageStatus, talk: Option<ConversationStatus>, now: int): Progress
    requires id in s.work.byId
  {
    var env := s.work.byId[id].env;
    var moved := s.(work := SetStatus(s.work, id, status));
    var tasked := env.task != [] && env.kind.TaskMessage?;
    if tasked && UpsertFails(s.board, env, status) then Progress(moved, true)
    else
      Progress(moved.(board := if tasked then UpsertTask(s.board, env, status, now) else s.board, talks := Touch(s.talks, env, talk)), false)
  }

  /** Hand over an item taken from the agent's inbox. */
  function Deliver(s: State, agent: Id, project: Option<Id>, lease: Id, item: Envelope, now: int): Effect {
    if PollRefused(s, agent, project, lease) then Fail(s, LeaseConflict)
    else if item.id !in s.work.byId then Effect(s, Delivery(item.task, None))
    else if !IsBusy(s.work.byId[item.id].status) then Effect(s, Skipped)
    else
      var env := s.work.byId[item.id].env;
      var p := Advanced(s, item.id, MessageStatus.Delivered, None, now);
      if p.failed then Fail(p.state, IllegalTransition)
      else Effect(p.state, Delivery(env.task, if env.task != [] && env.kind.TaskMessage? then LeaseAt(p.state.board, Key(env.project, env.task)) else None))
  }

  /** The lease a reply has to match when it asserts an epoch. */
  function LeaseAt(b: Board, key: Id): Option<Lease> {
    if key in b.jobs then b.jobs[key].lease else None
  }

  datatype Assertion = Unasserted | Asserted(epoch: int, holder: Id)

  predicate ReplyIsStale(b: Board, env: Envelope, a: Assertion) {
    && env.task != [] && a.Asserted?
    && LeaseAt(b, Key(env.project, env.task)).Some?
    && !Matches(LeaseAt(b, Key(env.project, env.task)).value, a.holder, a.epoch)
  }

  /** What an accepted reply does to the message it answers, its task, its conversation and the waiting callers. */
  function Replied(s: State, messageId: Id, reply: Envelope, now: int): State {
    var status := ReplyStatus(reply);
    s.(work := if messageId in s.work.byId then SetStatus(s.work, messageId, status) else s.work,
       board := UpsertTask(s.board, reply, status, now),
       talks := Touch(s.talks, reply, Some(TalkStatusOf(status))),
       waits := SettleWaits(s.waits, reply, status, GotReply(reply.id)))
  }

  function SaveReply(s: State, messageId: Id, reply: Envelope, a: Assertion, sessionLease: Id, now: int): Effect {
    if sessionLease != [] && !HoldsLease(s.registry, reply.sender, Some(reply.project), sessionLease) then Fail(s, LeaseConflict)
    else if ReplyIsStale(s.board, reply, a) then Fail(s, LeaseConflict)
    else if messageId in s.work.byId && (s.work.byId[messageId].status.Timeout? || s.work.byId[messageId].status.Cancelled?)
    then Effect(s, ReplyIgnored)
    else Effect(Replied(s, messageId, reply, now), Accepted)
  }

  function UpdateStatus(s: State, messageId: Id, status: MessageStatus, sessionLease: Id, now: int): Effect {
    if messageId !in s.work.byId then Fail(s, NotFound)
    else
      var m := s.work.byId[messageId];
      if sessionLease != [] && !HoldsLease(s.registry, m.env.target, Some(m.env.project), sessionLease) then Fail(s, LeaseConflict)
      else if !IsBusy(m.status) then Effect(s, Accepted)
      else
        var p := Advanced(s, messageId, status, Some(TalkStatusOf(status)), now);
        Effect(p.state, if p.failed then Raised(IllegalTransition) else Accepted)
  }

  datatype Activity = Activity(project: Id, task: Id, conversation: Id, message: Id, agent: Id, sessionLease: Id)

  predicate ActivityNames(m: Message, a: Activity) {
    && m.env.project == a.project
    && ((a.task != [] && m.env.task == a.task) || (a.conversation != [] && m.env.conversation == a.conversation))
  }

  /** The first stored message an activity speaks about when it does not name one. */
  function FirstNamed(w: Work, ids: seq<Id>, a: Activity): Option<Id> {
    if ids == [] then None
    else if ids[0] in w.byId && ActivityNames(w.byId[ids[0]], a) then Some(ids[0])
    else FirstNamed(w, ids[1..], a)
  }

  function ActivityTarget(w: Work, a: Activity): Option<Id> {
    if a.message != [] && a.message in w.byId then Some(a.message) else FirstNamed(w, w.order, a)
  }

  /** Mark a live projection as running. */
  function RunProjection(b: Board, key: Id): Board {
    if key in b.tasks && (b.tasks[key].status.Queued? || b.tasks[key].status.Delivered? || b.tasks[key].status.Running?)
    then b.(tasks := b.tasks[key := b.tasks[key].(status := JobStatus.Running)]) else b
  }

  function RecordActivity(s: State, a: Activity, now: int): Effect {
    if a.sessionLease != [] && !HoldsLease(s.registry, a.agent, Some(a.project), a.sessionLease) then Fail(s, LeaseConflict)
    else
      var target := ActivityTarget(s.work, a);
      var runs := target.Some? && target.value in s.work.byId && IsBusy(s.work.byId[target.value].status);
      var work := if runs then SetStatus(s.work, target.value, MessageStatus.Running) else s.work;
      var board :=
        if runs && s.work.byId[target.value].env.kind.TaskMessage?
        then UpsertTask(s.board, s.work.byId[target.value].env, MessageStatus.Running, now) else s.board;
      Effect(s.(work := work, board := if a.task == [] then board else RunProjection(board, Key(a.project, a.task))), Accepted)
  }

  // ---------------------------------------------------------------------
  // Cancel and close
  // ---------------------------------------------------------------------

  predicate IsCancelTarget(m: Message, item: Id, project: Option<Id>) {
    && (project.None? || m.env.project == project.value)
    && (m.env.id == item || m.env.task == item || m.env.conversation == item)
    && IsBusy(m.status)
  }

  function CancelTargets(w: Work, ids: seq<Id>, item: Id, project: Option<Id>): seq<Id> {
    if ids == [] then []
    else
      CancelTargets(w, ids[..|ids| - 1], item, project) +
      (if ids[|ids| - 1] in w.byId && IsCancelTarget(w.byId[ids[|ids| - 1]], item, project) then [ids[|ids| - 1]] else [])
  }

  function CancelAll(s: State, ids: seq<Id>, now: int): State {
    if ids == [] then s
    else
      var before := CancelAll(s, ids[..|ids| - 1], now);
      if ids[|ids| - 1] in before.work.byId then Settle(before, ids[|ids| - 1], MessageStatus.Cancelled, now) else before
  }

  /** A conversation by project and id, or by id alone when that is unambiguous. */
  ghost predicate IsConversationFor(t: Talks, id: Id, project: Option<Id>, key: Id) {
    && key in t.conversations
    && match project
       case Some(p) => key == Key(p, id)
       case None => t.conversations[key].id == id && forall k :: k in t.conversations && t.conversations[k].id == id ==> k == key
  }

  function TalkEnvelope(c: Conversation, id: Id, kind: MessageType, turn: nat): Envelope {
    Envelope([], [], c.project, id, [], c.sender, c.target, kind, MessageStatus.Cancelled, turn, c.maxTurns, true, 0)
  }

  ghost function FindConversation(t: Talks, id: Id, project: Option<Id>): Option<Conversation> {
    if exists k :: IsConversationFor(t, id, project, k)
    then var k :| IsConversationFor(t, id, project, k); Some(t.conversations[k])
    else None
  }

  ghost function CancelWork(s: State, item: Id, project: Option<Id>, now: int): Effect {
    var targets := CancelTargets(s.work, s.work.order, item, project);
    var conversation := FindConversation(s.talks, item, project);
    if targets != [] then Effect(CancelAll(s, targets, now), CancelledItems(targets))
    else if conversation.Some? && conversation.value.status.Open? then
      var env := TalkEnvelope(conversation.value, item, ChatTurn, conversation.value.turn);
      Effect(s.(talks := Touch(s.talks, env, Some(ConversationStatus.Cancelled))), CancelledItems([item]))
    else Fail(s, NotFound)
  }

  function Min(a: nat, b: nat): nat {
    if a < b then a else b
  }

  /** A close names its conversation by project and id, else by id alone. */
  ghost function CloseConversation(s: State, id: Id, env: Envelope): Effect {
    var scoped := FindConversation(s.talks, id, Some(env.project));
    var found := if scoped.Some? then scoped else FindConversation(s.talks, id, None);
    match found
    case None => Fail(s, NotFound)
    case Some(c) =>
      var turn := Min(if env.turn < c.turn + 1 then c.turn + 1 else env.turn, c.maxTurns);
      var close := TalkEnvelope(c, id, ChatClose, turn).(
        sender := if env.sender != [] then env.sender else c.sender,
        target := if env.target != [] then env.target else c.target);
      Effect(s.(talks := Touch(s.talks, close, Some(ConversationStatus.Closed))), Accepted)
  }

  // ---------------------------------------------------------------------
  // Job leases
  // ---------------------------------------------------------------------

  /** The stored job a task id names: exactly, or by suffix when that is unambiguous. */
  ghost predicate IsJobFor(b: Board, task: Id, project: Option<Id>, key: Id) {
    if project.Some? && Key(project.value, task) in b.jobs then key == Key(project.value, task)
    else key in b.jobs && Names(key, task) && forall k :: k in b.jobs && Names(k, task) ==> k == key
  }

  ghost function FindJob(b: Board, task: Id, project: Option<Id>): Option<Id> {
    if exists k :: IsJobFor(b, task, project, k) then var k :| IsJobFor(b, task, project, k); Some(k) else None
  }

  function StoreLease(s: State, key: Id, status: JobStatus, lease: Lease): State
    requires key in s.board.jobs
  {
    s.(board := StoreJob(s.board, key, s.board.jobs[key].(status := status, lease := Some(lease))))
  }

  ghost function HeartbeatJob(s: State, task: Id, holder: Id, epoch: int, project: Option<Id>, heartbeatMs: int, now: int): Effect {
    match FindJob(s.board, task, project)
    case None => Fail(s, NotFound)
    case Some(key) =>
      if key !in s.board.jobs || s.board.jobs[key].lease.None? || !Matches(s.board.jobs[key].lease.value, holder, epoch)
      then Fail(s, LeaseConflict)
      else
        var lease := Renew(s.board.jobs[key].lease.value, heartbeatMs, now);
        Effect(StoreLease(s, key, s.board.jobs[key].status, lease), LeaseRenewed(lease))
  }

  ghost function ReclaimJob(s: State, task: Id, holder: Id, project: Option<Id>, now: int): Effect {
    match FindJob(s.board, task, project)
    case None => Fail(s, NotFound)
    case Some(key) =>
      if key !in s.board.jobs || s.board.jobs[key].lease.None? then Fail(s, LeaseConflict)
      else
        var job := s.board.jobs[key];
        var lease := job.lease.value;
        if IsActive(lease, now) then
          if lease.holder == holder then Effect(s, LeaseReclaimed(lease, false)) else Fail(s, LeaseConflict)
        else if Reclaimable !in Allowed(job.status) then Fail(s, IllegalTransition)
        else Effect(StoreLease(s, key, JobStatus.Running, Reclaim(lease, holder, now)), LeaseReclaimed(Reclaim(lease, holder, now), true))
  }

  /** A transcript append asserting an epoch needs the current lease; a finished task takes no more text. */
  function TranscriptFence(s: State, project: Id, task: Id, agent: Id, sessionLease: Id, a: Assertion): Effect {
    var key := Key(project, task);
    if sessionLease != [] && !HoldsLease(s.registry, agent, Some(project), sessionLease) then Fail(s, LeaseConflict)
    else if a.Asserted? && (LeaseAt(s.board, key).None? || !Matches(LeaseAt(s.board, key).value, a.holder, a.epoch))
    then Fail(s, LeaseConflict)
    else if key in s.board.jobs && IsTerminal(s.board.jobs[key].status) then Fail(s, LeaseConflict)
    else Effect(s, Accepted)
  }

  function RecordTelemetry(s: State, project: Id, task: Id, agent: Id, sessionLease: Id, a: Assertion, toolCount: int): Effect {
    var key := Key(project, task);
    if task == [] then Fail(s, TelemetryRejected)
    else if sessionLease != [] && !HoldsLease(s.registry, agent, Some(project), sessionLease) then Fail(s, TelemetryRejected)
    else if a.Asserted? && (LeaseAt(s.board, key).None? || !Matches(LeaseAt(s.board, key).value, a.holder, a.epoch))
    then Fail(s, TelemetryRejected)
    else if key !in s.board.tasks || IsTerminal(s.board.tasks[key].status) then Fail(s, TelemetryRejected)
    else
      var stamp := Telemetry(if a.Asserted? then a.epoch else 0, if a.Asserted? then a.holder else [], if toolCount < 0 then 0 else toolCount);
      Effect(s.(telemetry := s.telemetry[key := stamp]), Accepted)
  }

  // ---------------------------------------------------------------------
  // Waiting
  // ---------------------------------------------------------------------

  ghost predicate IsOnlyResult(w: Waits, task: Id, key: Id) {
    key in w.results && Names(key, task) && forall k :: k in w.results && Names(k, task) ==> k == key
  }

  /** A task wait returns a stored result, fails for an unknown scoped task, or registers a future. */
  ghost function PrepareTaskWait(s: State, task: Id, project: Option<Id>): Effect {
    var key := match project case None => task case Some(p) => Key(p, task);
    if project.Some? && key in s.waits.results then Effect(s, Known(s.waits.results[key]))
    else if project.Some? && key !in s.board.tasks then Effect(s, Missing)
    else if project.None? && exists k :: IsOnlyResult(s.waits, task, k) then
      var k :| IsOnlyResult(s.waits, task, k);
      Effect(s, Known(s.waits.results[k]))
    else
      var f := |s.waits.futures|;
      var waits := NewFuture(s.waits, TaskWait(key, project.Some?));
      Effect(s.(waits := waits.(waiters := waits.waiters[key := WaitersAt(waits, key) + [f]])), Waiting(f))
  }

  function Remove(fs: seq<nat>, f: nat): (r: seq<nat>)
    ensures forall x :: x in r <==> x in fs && x != f
  {
    if fs == [] then []
    else Remove(fs[..|fs| - 1], f) + (if fs[|fs| - 1] == f then [] else [fs[|fs| - 1]])
  }

  function CleanupTaskWaiter(s: State, key: Id, f: nat): Effect {
    var left := Remove(WaitersAt(s.waits, key), f);
    Effect(s.(waits := s.waits.(waiters := if left == [] then s.waits.waiters - {key} else s.waits.waiters[key := left])), Accepted)
  }

  function PrepareReplyWait(s: State, correlation: Id): Effect {
    var waits := ReplyFuture(s.waits, correlation);
    Effect(s.(waits := waits), Waiting(waits.replies[correlation]))
  }

  /** Giving up a wait abandons its future, if it is still pending. */
  function AbandonWait(s: State, f: nat): Effect {
    Effect(s.(waits := s.waits.(futures := Complete(s.waits.futures, f, Abandoned))), Accepted)
  }

  function FirstCorrelated(w: Work, ids: seq<Id>, correlation: Id): Option<Id> {
    if ids == [] then None
    else if ids[0] in w.byId && w.byId[ids[0]].env.correlation == correlation then Some(ids[0])
    else FirstCorrelated(w, ids[1..], correlation)
  }

  /** A reply timeout overwrites the message's status, whatever it is, and stores no result. */
  function TimeoutReply(s: State, correlation: Id, now: int): Effect {
    match FirstCorrelated(s.work, s.work.order, correlation)
    case None => Effect(s, Accepted)
    case Some(id) =>
      if id !in s.work.byId then Effect(s, Accepted)
      else
        var env := s.work.byId[id].env;
        Effect(s.(work := SetStatus(s.work, id, MessageStatus.Timeout),
                  board := UpsertTask(s.board, env, MessageStatus.Timeout, now),
                  talks := Touch(s.talks, env, Some(ConversationStatus.Timeout))),
               Accepted)
  }

  function CleanupReplyWaiter(s: State, correlation: Id, f: nat): Effect {
    if correlation in s.waits.replies && s.waits.replies[correlation] == f
    then Effect(s.(waits := s.waits.(replies := s.waits.replies - {correlation})), Accepted)
    else Effect(s, Accepted)
  }

  // ---------------------------------------------------------------------
  // Calls
  // ---------------------------------------------------------------------

  datatype Op =
    | DoAcquire(command: AcquireCommand)
    | DoHeartbeatSession(lease: Id, scope: Option<Id>, worker: Id)
    | DoReleaseSession(lease: Id, scope: Option<Id>)
    | DoExpireSessions
    | DoEnqueue(env: Envelope, createWaiter: bool)
    | DoDeliver(agent: Id, scope: Option<Id>, lease: Id, env: Envelope)
    | DoSaveReply(message: Id, env: Envelope, claim: Assertion, lease: Id)
    | DoUpdateStatus(message: Id, status: MessageStatus, lease: Id)
    | DoRecordActivity(activity: Activity)
    | DoCancelWork(item: Id, scope: Option<Id>)
    | DoCloseConversation(conversation: Id, env: Envelope)
    | DoHeartbeatJob(task: Id, holder: Id, epoch: int, scope: Option<Id>, heartbeatMs: int)
    | DoReclaimJob(task: Id, holder: Id, scope: Option<Id>)
    | DoAppendTranscript(project: Id, task: Id, agent: Id, lease: Id, claim: Assertion)
    | DoRecordTelemetry(project: Id, task: Id, agent: Id, lease: Id, claim: Assertion, toolCount: int)
    | DoPrepareTaskWait(task: Id, scope: Option<Id>)
    | DoCleanupTaskWaiter(key: Id, future: nat)
    | DoPrepareReplyWait(correlation: Id)
    | DoAbandonWait(future: nat)
    | DoTimeoutReply(correlation: Id)
    | DoCleanupReplyWaiter(correlation: Id, future: nat)
    | DoObserve

  /** Operations that begin with the full sweep. */
  predicate Sweeps(op: Op) {
    match op
    case DoExpireSessions => false
    case DoRecordTelemetry(_, _, _, _, _, _) => false
    case DoCleanupTaskWaiter(_, _) => false
    case DoAbandonWait(_) => false
    case DoTimeoutReply(_) => false
    case DoCleanupReplyWaiter(_, _) => false
    case _ => true
  }

  predicate IsPending(w: Waits, f: nat) {
    f < |w.futures| && w.futures[f].state.Pending?
  }

  /** The operation itself, after its sweep. A caller cleans up its waiter only once its own wait is over. */
  ghost function Act(cfg: Config, s: State, op: Op, now: int): Effect {
    match op
    case DoAcquire(c) => Acquire(cfg, s, c, now)
    case DoHeartbeatSession(lease, scope, worker) => HeartbeatSession(s, lease, scope, worker, now)
    case DoReleaseSession(lease, scope) => ReleaseSession(s, lease, scope, now)
    case DoExpireSessions => Effect(ExpireSessions(cfg, s, s.registry.order, now), ExpiredSessions(StaleLeases(cfg, s.registry, s.registry.order, now)))
    case DoEnqueue(env, createWaiter) => Enqueue(cfg, s, env, createWaiter, now)
    case DoDeliver(agent, scope, lease, env) => Deliver(s, agent, scope, lease, env, now)
    case DoSaveReply(message, env, claim, lease) => SaveReply(s, message, env, claim, lease, now)
    case DoUpdateStatus(message, status, lease) => UpdateStatus(s, message, status, lease, now)
    case DoRecordActivity(activity) => RecordActivity(s, activity, now)
    case DoCancelWork(item, scope) => CancelWork(s, item, scope, now)
    case DoCloseConversation(conversation, env) => CloseConversation(s, conversation, env)
    case DoHeartbeatJob(task, holder, epoch, scope, heartbeatMs) => HeartbeatJob(s, task, holder, epoch, scope, heartbeatMs, now)
    case DoReclaimJob(task, holder, scope) => ReclaimJob(s, task, holder, scope, now)
    case DoAppendTranscript(project, task, agent, lease, claim) => TranscriptFence(s, project, task, agent, lease, claim)
    case DoRecordTelemetry(project, task, agent, lease, claim, toolCount) => RecordTelemetry(s, project, task, agent, lease, claim, toolCount)
    case DoPrepareTaskWait(task, scope) => PrepareTaskWait(s, task, scope)
    case DoCleanupTaskWaiter(key, f) => if IsPending(s.waits, f) then Effect(s, Accepted) else CleanupTaskWaiter(s, key, f)
    case DoPrepareReplyWait(correlation) => PrepareReplyWait(s, correlation)
    case DoAbandonWait(f) => AbandonWait(s, f)
    case DoTimeoutReply(correlation) => TimeoutReply(s, correlation, now)
    case DoCleanupReplyWaiter(correlation, f) => CleanupReplyWaiter(s, correlation, f)
    case DoObserve => Effect(s, Accepted)
  }

  ghost function Swept(cfg: Config, s: State, op: Op, now: int): State {
    if Sweeps(op) then Sweep(cfg, s, now) else s
  }

  ghost function Apply(cfg: Config, s: State, op: Op, now: int): Effect {
    Act(cfg, Swept(cfg, s, op, now), op, now)
  }
}

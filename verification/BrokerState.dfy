/** The broker's state record and the small updates every operation is made of. */
module BrokerState {
  import opened Basics
  import opened Jobs

  type Id = string

  datatype MessageType =
    | TaskMessage | TaskReply | PlanMessage | ResultMessage | BlockerMessage | ReviewMessage | CloseMessage | StopMessage
    | ChatStart | ChatTurn | ChatReply | ChatClose

  predicate IsTalk(kind: MessageType) {
    kind.ChatStart? || kind.ChatTurn? || kind.ChatReply? || kind.ChatClose?
  }

  predicate IsWorkerBound(kind: MessageType) {
    kind.TaskMessage? || kind.ChatStart? || kind.ChatTurn? || kind.ChatClose?
  }

  /** A validated message; the project is already defaulted and an empty id stands for an absent one. */
  datatype Envelope = Envelope(
    id: Id, correlation: Id, project: Id, conversation: Id, task: Id, sender: Id, target: Id,
    kind: MessageType, status: MessageStatus, turn: nat, maxTurns: nat, requiresReply: bool, timeoutSeconds: int)

  /** Times are milliseconds. */
  datatype Message = Message(env: Envelope, status: MessageStatus, createdAt: int)

  datatype Projection = Projection(id: Id, project: Id, status: JobStatus, lease: Option<Lease>)

  datatype TaskResult = TaskResult(status: MessageStatus, project: Id, task: Id)

  datatype Conversation = Conversation(
    id: Id, project: Id, participants: seq<Id>, status: ConversationStatus, turn: nat, maxTurns: nat, sender: Id, target: Id)

  datatype SessionStatus = Active | Released | Expired

  datatype Session = Session(
    lease: Id, project: Id, agent: Id, worker: Id, status: SessionStatus, lastSeen: int, graceSeconds: int, settled: seq<Id>)

  /** What a waiting caller waits for; a task wait may be scoped to a project. */
  datatype FutureKind = ReplyWait(correlation: Id) | TaskWait(key: Id, scoped: bool)

  datatype FutureState = Pending | Abandoned | GotResult(result: TaskResult) | GotReply(reply: Id) | GotBlocker(status: MessageStatus)

  datatype Future = Future(kind: FutureKind, state: FutureState)

  datatype Telemetry = Telemetry(epoch: int, holder: Id, toolCount: int)

  /** A dictionary whose insertion order matters: updating a key keeps its place. */
  datatype Work = Work(order: seq<Id>, byId: map<Id, Message>)
  datatype Registry = Registry(order: seq<Id>, byLease: map<Id, Session>)

  datatype Board = Board(jobs: map<Id, Job>, tasks: map<Id, Projection>)
  datatype Talks = Talks(conversations: map<Id, Conversation>, jobs: map<Id, Job>)
  datatype Waits = Waits(results: map<Id, TaskResult>, replies: map<Id, nat>, waiters: map<Id, seq<nat>>, futures: seq<Future>)

  datatype State = State(
    work: Work, board: Board, talks: Talks, waits: Waits, registry: Registry, telemetry: map<Id, Telemetry>)

  const EMPTY := State(Work([], map[]), Board(map[], map[]), Talks(map[], map[]), Waits(map[], map[], map[], []), Registry([], map[]), map[])

  datatype Config = Config(requirePeers: bool, graceSeconds: int)

  /** Tasks and conversations are stored under "project:id". */
  function Key(project: Id, id: Id): Id {
    project + [':'] + id
  }

  predicate EndsWith(s: Id, suffix: Id) {
    |suffix| <= |s| && s[|s| - |suffix|..] == suffix
  }

  /** How a bare task id is matched against stored keys. */
  predicate Names(key: Id, id: Id) {
    EndsWith(key, [':'] + id) || key == id
  }

  function TalkStatusOf(s: MessageStatus): ConversationStatus {
    match s
    case Closed => ConversationStatus.Closed
    case Timeout => ConversationStatus.Timeout
    case Failed => ConversationStatus.Failed
    case Cancelled => ConversationStatus.Cancelled
    case _ => Open
  }

  /** The status a reply gives its message and job. */
  function ReplyStatus(env: Envelope): MessageStatus {
    if env.kind.ChatClose? then MessageStatus.Closed
    else if env.status.Failed? || env.status.Timeout? || env.status.Cancelled? then MessageStatus.Failed
    else MessageStatus.Done
  }

  // ---------------------------------------------------------------------
  // Messages
  // ---------------------------------------------------------------------

  function PutMessage(w: Work, m: Message): Work {
    Work(if m.env.id in w.byId then w.order else w.order + [m.env.id], w.byId[m.env.id := m])
  }

  function SetStatus(w: Work, id: Id, status: MessageStatus): Work
    requires id in w.byId
  {
    w.(byId := w.byId[id := w.byId[id].(status := status)])
  }

  // ---------------------------------------------------------------------
  // Jobs and their projections
  // ---------------------------------------------------------------------

  function ProjectionOf(job: Job): Projection {
    Projection(job.id, job.project, job.status, job.lease)
  }

  /** The job a message speaks about: the stored one, or a new one if the message may create it. */
  function JobFor(b: Board, env: Envelope): Option<Job> {
    var key := Key(env.project, env.task);
    if env.task == [] then None
    else if key in b.jobs then Some(b.jobs[key])
    else if key !in b.tasks && !env.kind.TaskMessage? then None
    else Some(Job(env.task, env.project, JobStatus.Created, None))
  }

  function StoreJob(b: Board, key: Id, job: Job): Board {
    Board(b.jobs[key := job], b.tasks[key := ProjectionOf(job)])
  }

  /** A delivered job without a lease is leased to the message's target, at epoch 1. */
  function Dispatched(job: Job, target: Id, now: int): Job {
    if job.status.Delivered? && job.lease.None? && target != [] then
      job.(lease := Some(FreshLease(target, DEFAULT_HEARTBEAT_MS, 1, now)))
    else job
  }

  predicate UpsertFails(b: Board, env: Envelope, status: MessageStatus) {
    JobFor(b, env).Some? && Transition(JobFor(b, env).value, status).Err?
  }

  function UpsertTask(b: Board, env: Envelope, status: MessageStatus, now: int): Board {
    match JobFor(b, env)
    case None => b
    case Some(job) =>
      match Transition(job, status)
      case Err(_) => b
      case Ok(moved) => StoreJob(b, Key(env.project, env.task), Dispatched(moved, env.target, now))
  }

  // ---------------------------------------------------------------------
  // Conversations
  // ---------------------------------------------------------------------

  function WithParticipant(participants: seq<Id>, agent: Id): seq<Id> {
    if agent == [] || agent in participants then participants else participants + [agent]
  }

  function Present(agent: Id): seq<Id> {
    if agent == [] then [] else [agent]
  }

  /** The conversation a talk message continues, or the one it opens. */
  function BaseConversation(t: Talks, env: Envelope): Conversation {
    var key := Key(env.project, env.conversation);
    if key in t.conversations then t.conversations[key]
    else Conversation(env.conversation, env.project, Present(env.sender) + Present(env.target), if env.kind.ChatClose? then ConversationStatus.Closed else Open,
                      env.turn, env.maxTurns, env.sender, env.target)
  }

  function NextConversation(t: Talks, env: Envelope, status: Option<ConversationStatus>): Conversation {
    var base := BaseConversation(t, env);
    var asked := match status case None => base.status case Some(s) => s;
    base.(
      participants := WithParticipant(WithParticipant(base.participants, env.sender), env.target),
      status := if env.kind.ChatClose? || (env.kind.ChatReply? && env.turn >= env.maxTurns) then ConversationStatus.Closed else asked,
      turn := env.turn,
      maxTurns := env.maxTurns,
      sender := if base.sender != [] then base.sender else env.sender,
      target := if base.target != [] then base.target else env.target)
  }

  function TalkJobFor(t: Talks, env: Envelope): Job {
    var key := Key(env.project, env.conversation);
    if key in t.jobs then t.jobs[key] else Job(env.conversation, env.project, JobStatus.Created, None)
  }

  function Touch(t: Talks, env: Envelope, status: Option<ConversationStatus>): Talks {
    if env.conversation == [] || !IsTalk(env.kind) then t
    else
      var key := Key(env.project, env.conversation);
      var next := NextConversation(t, env, status);
      match TransitionTalkJob(TalkJobFor(t, env), next.status)
      case Err(_) => t
      case Ok(job) => Talks(t.conversations[key := next], t.jobs[key := job])
  }

  // ---------------------------------------------------------------------
  // Waiting callers
  // ---------------------------------------------------------------------

  function NewFuture(w: Waits, kind: FutureKind): Waits {
    w.(futures := w.futures + [Future(kind, FutureState.Pending)])
  }

  /** Only a pending future can be completed. */
  function Complete(futures: seq<Future>, f: nat, state: FutureState): (r: seq<Future>)
    ensures |r| == |futures|
    ensures forall g :: 0 <= g < |r| ==> r[g].kind == futures[g].kind && (!futures[g].state.Pending? ==> r[g] == futures[g])
  {
    if f < |futures| && futures[f].state.Pending? then futures[f := futures[f].(state := state)] else futures
  }

  function CompleteAll(futures: seq<Future>, fs: seq<nat>, state: FutureState): (r: seq<Future>)
    ensures |r| == |futures|
    ensures forall g :: 0 <= g < |r| ==> r[g].kind == futures[g].kind && (!futures[g].state.Pending? ==> r[g] == futures[g])
  {
    if fs == [] then futures
    else Complete(CompleteAll(futures, fs[..|fs| - 1], state), fs[|fs| - 1], state)
  }

  function WaitersAt(w: Waits, key: Id): seq<nat> {
    if key in w.waiters then w.waiters[key] else []
  }

  function ResolveWaiters(w: Waits, key: Id, r: TaskResult): Waits {
    w.(waiters := w.waiters - {key}, futures := CompleteAll(w.futures, WaitersAt(w, key), GotResult(r)))
  }

  function StoreResult(w: Waits, r: TaskResult): Waits {
    var key := Key(r.project, r.task);
    ResolveWaiters(ResolveWaiters(w.(results := w.results[key := r]), key, r), r.task, r)
  }

  function ResolveReply(w: Waits, correlation: Id, state: FutureState): Waits {
    if correlation in w.replies then w.(futures := Complete(w.futures, w.replies[correlation], state)) else w
  }

  /** The future callers of one correlation share, created on first use. */
  function ReplyFuture(w: Waits, correlation: Id): Waits {
    if correlation in w.replies then w
    else NewFuture(w, ReplyWait(correlation)).(replies := w.replies[correlation := |w.futures|])
  }

  // ---------------------------------------------------------------------
  // Ending one message without a reply
  // ---------------------------------------------------------------------

  /** Store the result of a message's task, if it has one, and wake the callers waiting for either. */
  function SettleWaits(w: Waits, env: Envelope, status: MessageStatus, reply: FutureState): Waits {
    ResolveReply(if env.task == [] then w else StoreResult(w, TaskResult(status, env.project, env.task)), env.correlation, reply)
  }

  /** Cancel or time out one message: its job, result, conversation and waiting callers follow. */
  function Settle(s: State, id: Id, status: MessageStatus, now: int): State
    requires id in s.work.byId
  {
    var env := s.work.byId[id].env;
    s.(work := SetStatus(s.work, id, status),
       board := UpsertTask(s.board, env, status, now),
       talks := Touch(s.talks, env, Some(TalkStatusOf(status))),
       waits := SettleWaits(s.waits, env, status, GotBlocker(status)))
  }

  /** The ids under which a settled message is reported. */
  function SettledIds(env: Envelope): seq<Id> {
    (if env.task == [] then [] else [env.task]) +
    (if IsTalk(env.kind) && env.conversation != [] then [env.conversation] else [])
  }

  // ---------------------------------------------------------------------
  // Sessions
  // ---------------------------------------------------------------------

  function PutSession(r: Registry, x: Session): Registry {
    Registry(if x.lease in r.byLease then r.order else r.order + [x.lease], r.byLease[x.lease := x])
  }

  predicate InProject(x: Session, project: Option<Id>) {
    project.None? || x.project == project.value
  }

  predicate IsActiveFor(x: Session, agent: Id, project: Option<Id>) {
    x.status.Active? && x.agent == agent && InProject(x, project)
  }

  predicate HasActiveSession(r: Registry, agent: Id, project: Option<Id>) {
    exists l :: l in r.byLease && IsActiveFor(r.byLease[l], agent, project)
  }

  predicate HoldsLease(r: Registry, agent: Id, project: Option<Id>, lease: Id) {
    lease in r.byLease && IsActiveFor(r.byLease[lease], agent, project)
  }
}

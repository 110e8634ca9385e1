/** What the broker's state always satisfies, and how each small update respects it. */
module BrokerInvariants {
  import opened Basics
  import opened Jobs
  import opened BrokerState
  import opened BrokerOps

  // ---------------------------------------------------------------------
  // Messages
  // ---------------------------------------------------------------------

  ghost predicate WorkOK(w: Work) {
    && (forall i, j :: 0 <= i < j < |w.order| ==> w.order[i] != w.order[j])
    && (forall id :: id in w.order <==> id in w.byId)
    && (forall id :: id in w.byId ==> w.byId[id].env.id == id)
  }

  predicate Occupies(m: Message) {
    IsWorkerBound(m.env.kind) && IsBusy(m.status)
  }

  predicate SameTarget(a: Message, b: Message) {
    a.env.project == b.env.project && a.env.target == b.env.target
  }

  /** At most one busy worker-bound message per project and target agent. */
  ghost predicate OneBusyPerWorker(m: map<Id, Message>) {
    forall a, b :: a in m && b in m && a != b && Occupies(m[a]) && Occupies(m[b]) ==> !SameTarget(m[a], m[b])
  }

  /** Messages keep their envelope and none becomes busy that was not. */
  ghost predicate LessBusy(w: Work, n: Work) {
    && n.order == w.order
    && (forall id :: id in n.byId <==> id in w.byId)
    && (forall id :: id in w.byId ==>
          && n.byId[id].env == w.byId[id].env
          && n.byId[id].createdAt == w.byId[id].createdAt
          && (IsBusy(n.byId[id].status) ==> IsBusy(w.byId[id].status)))
  }

  lemma LessBusyKeeps(w: Work, n: Work)
    requires WorkOK(w) && OneBusyPerWorker(w.byId) && LessBusy(w, n)
    ensures WorkOK(n) && OneBusyPerWorker(n.byId)
  {
  }

  lemma EndingKeepsWork(w: Work, id: Id, status: MessageStatus)
    requires WorkOK(w) && OneBusyPerWorker(w.byId) && id in w.byId && (IsBusy(status) ==> IsBusy(w.byId[id].status))
    ensures LessBusy(w, SetStatus(w, id, status))
    ensures WorkOK(SetStatus(w, id, status)) && OneBusyPerWorker(SetStatus(w, id, status).byId)
  {
    LessBusyKeeps(w, SetStatus(w, id, status));
  }

  // ---------------------------------------------------------------------
  // Jobs
  // ---------------------------------------------------------------------

  /** A finished job has no lease; a leased one is delivered or running; reclaimable is never stored. */
  predicate JobShape(job: Job) {
    && !job.status.Reclaimable?
    && (job.lease.Some? ==> (job.status.Delivered? || job.status.Running?) && job.lease.value.epoch >= 1)
  }

  /** A projection is its job's, save that activity may show as running what still waits to run. */
  predicate Follows(p: Projection, job: Job) {
    && p.id == job.id && p.project == job.project && p.lease == job.lease
    && (p.status == job.status || (p.status.Running? && (job.status.Queued? || job.status.Delivered?)))
  }

  ghost predicate BoardOK(b: Board) {
    && (forall k :: k in b.jobs ==> JobShape(b.jobs[k]) && Key(b.jobs[k].project, b.jobs[k].id) == k)
    && b.tasks.Keys == b.jobs.Keys
    && (forall k :: k in b.jobs ==> Follows(b.tasks[k], b.jobs[k]))
  }

  /** A lease only stays, is cleared for good by the job's end, or is first granted at epoch 1. */
  predicate QuietJob(j: Job, n: Job) {
    && n.id == j.id && n.project == j.project
    && (IsTerminal(j.status) ==> n.status == j.status)
    && (j.lease.Some? ==> n.lease == j.lease || (n.lease.None? && IsTerminal(n.status)))
    && (j.lease.None? && n.lease.Some? ==> n.lease.value.epoch == 1)
  }

  ghost predicate Quiet(b: Board, n: Board) {
    && (forall k :: k in b.jobs ==> k in n.jobs && QuietJob(b.jobs[k], n.jobs[k]))
    && (forall k :: k in n.jobs && k !in b.jobs && n.jobs[k].lease.Some? ==> n.jobs[k].lease.value.epoch == 1)
    && (forall k :: k in b.tasks ==> k in n.tasks)
  }

  lemma QuietTransitive(a: Board, b: Board, c: Board)
    requires BoardOK(b) && BoardOK(c) && Quiet(a, b) && Quiet(b, c)
    ensures Quiet(a, c)
  {
    hide BoardOK, QuietJob, JobShape;
    JobsAreShapedOn(b);
    JobsAreShapedOn(c);
    forall k | k in a.jobs
      ensures k in c.jobs && QuietJob(a.jobs[k], c.jobs[k])
    {
      QuietJobTransitive(a.jobs[k], b.jobs[k], c.jobs[k]);
    }
    forall k | k in c.jobs && k !in a.jobs && c.jobs[k].lease.Some?
      ensures c.jobs[k].lease.value.epoch == 1
    {
      if k in b.jobs {
        LeaseComesFrom(b.jobs[k], c.jobs[k]);
      }
    }
  }

  lemma QuietJobTransitive(x: Job, y: Job, z: Job)
    requires JobShape(y) && JobShape(z) && QuietJob(x, y) && QuietJob(y, z)
    ensures QuietJob(x, z)
  {
  }

  lemma LeaseComesFrom(x: Job, y: Job)
    requires QuietJob(x, y) && y.lease.Some?
    ensures y.lease == x.lease || (x.lease.None? && y.lease.value.epoch == 1)
  {
  }

  lemma JobsAreShapedOn(b: Board)
    requires BoardOK(b)
    ensures forall k :: k in b.jobs ==> JobShape(b.jobs[k])
  {
  }

  lemma TransitionShapes(job: Job, status: MessageStatus)
    requires JobShape(job) && Transition(job, status).Ok?
    ensures JobShape(Transition(job, status).value) && QuietJob(job, Transition(job, status).value)
  {
  }

  predicate Ends(status: MessageStatus) {
    status.Done? || status.Failed? || status.Timeout? || status.Cancelled?
  }

  lemma EndingTransition(job: Job, status: MessageStatus)
    requires Ends(status)
    ensures Transition(job, status).Ok? && IsTerminal(Transition(job, status).value.status)
  {
  }

  /** Asking any job to end never fails, and it ends (unless it already had). */
  lemma EndingNeverFails(b: Board, env: Envelope, status: MessageStatus, now: int)
    requires Ends(status)
    ensures !UpsertFails(b, env, status)
    ensures var key := Key(env.project, env.task);
            var n := UpsertTask(b, env, status, now);
            && (env.task != [] && key in n.jobs ==> IsTerminal(n.jobs[key].status))
            && (forall k :: k in n.jobs ==> (k in b.jobs && n.jobs[k] == b.jobs[k]) || (k == key && IsTerminal(n.jobs[k].status)))
  {
    hide Key, Transition;
    if JobFor(b, env).Some? {
      EndingTransition(JobFor(b, env).value, status);
    }
  }

  lemma UpsertKeeps(b: Board, env: Envelope, status: MessageStatus, now: int)
    requires BoardOK(b)
    ensures BoardOK(UpsertTask(b, env, status, now)) && Quiet(b, UpsertTask(b, env, status, now))
  {
    hide Transition, StoreJob, BoardOK, Quiet, Key, JobShape;
    SameBoardIsQuiet(b);
    if JobFor(b, env).Some? {
      var job := JobFor(b, env).value;
      FoundJobIsShaped(b, env);
      if Transition(job, status).Ok? {
        TransitionShapes(job, status);
        DispatchShapes(Transition(job, status).value, env.target, now);
        StoringKeeps(b, Key(env.project, env.task), Dispatched(Transition(job, status).value, env.target, now));
      }
    }
  }

  lemma SameBoardIsQuiet(b: Board)
    ensures Quiet(b, b)
  {
  }

  lemma FoundJobIsShaped(b: Board, env: Envelope)
    requires BoardOK(b) && JobFor(b, env).Some?
    ensures var job := JobFor(b, env).value;
            JobShape(job) && Key(job.project, job.id) == Key(env.project, env.task)
            && (Key(env.project, env.task) in b.jobs ==> job == b.jobs[Key(env.project, env.task)])
            && (Key(env.project, env.task) !in b.jobs ==> job.lease.None?)
  {
  }

  lemma DispatchShapes(job: Job, target: Id, now: int)
    requires JobShape(job)
    ensures JobShape(Dispatched(job, target, now)) && QuietJob(job, Dispatched(job, target, now))
  {
  }

  lemma StoringKeeps(b: Board, key: Id, job: Job)
    requires BoardOK(b) && JobShape(job) && Key(job.project, job.id) == key
    requires key in b.jobs ==> QuietJob(b.jobs[key], job)
    requires key !in b.jobs && job.lease.Some? ==> job.lease.value.epoch == 1
    ensures BoardOK(StoreJob(b, key, job)) && Quiet(b, StoreJob(b, key, job))
  {
    StoringIsOK(b, key, job);
    hide Key, JobShape, BoardOK, QuietJob;
    SameBoardIsQuiet(b);
  }

  lemma StoringIsOK(b: Board, key: Id, job: Job)
    requires BoardOK(b) && JobShape(job) && Key(job.project, job.id) == key
    ensures BoardOK(StoreJob(b, key, job))
  {
    hide Key, JobShape;
  }

  // ---------------------------------------------------------------------
  // Conversations
  // ---------------------------------------------------------------------

  ghost predicate TalksOK(t: Talks) {
    forall k :: k in t.jobs ==> IsTalkStatus(t.jobs[k].status)
  }

  /** A finished talk job never moves again, whatever its conversation record says. */
  ghost predicate TalksQuiet(t: Talks, n: Talks) {
    forall k :: k in t.jobs ==> k in n.jobs && (IsTerminal(t.jobs[k].status) ==> n.jobs[k].status == t.jobs[k].status)
  }

  lemma TouchKeeps(t: Talks, env: Envelope, status: Option<ConversationStatus>)
    requires TalksOK(t)
    ensures TalksOK(Touch(t, env, status)) && TalksQuiet(t, Touch(t, env, status))
    ensures env.conversation != [] && IsTalk(env.kind) ==>
              TransitionTalkJob(TalkJobFor(t, env), NextConversation(t, env, status).status).Ok?
  {
    TalkTransitionIsTotal(TalkJobFor(t, env), NextConversation(t, env, status).status);
  }

  // ---------------------------------------------------------------------
  // Waiting callers
  // ---------------------------------------------------------------------

  ghost predicate IsPendingTaskWait(w: Waits, f: nat) {
    f < |w.futures| && w.futures[f].state.Pending? && w.futures[f].kind.TaskWait?
  }

  /**
   * Every pending task wait is listed under its key, and a project-scoped one is pending only while no
   * result for its task is stored.
   */
  ghost predicate PendingAreListed(w: Waits) {
    forall f: nat :: IsPendingTaskWait(w, f) ==>
      && f in WaitersAt(w, w.futures[f].kind.key)
      && (w.futures[f].kind.scoped ==> w.futures[f].kind.key !in w.results)
  }

  ghost predicate IsTaskWaitFor(w: Waits, f: nat, key: Id) {
    f < |w.futures| && w.futures[f].kind.TaskWait? && w.futures[f].kind.key == key
  }

  ghost predicate ListsAreTyped(w: Waits) {
    && (forall k, i :: k in w.waiters && 0 <= i < |w.waiters[k]| ==> IsTaskWaitFor(w, w.waiters[k][i], k))
    && (forall c :: c in w.replies ==> w.replies[c] < |w.futures| && w.futures[w.replies[c]].kind == ReplyWait(c))
  }

  /** A completed wait got an answer of its own kind: a result of its task, or a reply. */
  predicate IsAnswered(f: Future) {
    match f.state
    case GotResult(r) => f.kind.TaskWait? && (f.kind.key == Key(r.project, r.task) || f.kind.key == r.task)
    case GotReply(_) => f.kind.ReplyWait?
    case GotBlocker(_) => f.kind.ReplyWait?
    case _ => true
  }

  ghost predicate AnswersFit(w: Waits) {
    forall f :: 0 <= f < |w.futures| ==> IsAnswered(w.futures[f])
  }

  ghost predicate WaitsOK(w: Waits) {
    PendingAreListed(w) && ListsAreTyped(w) && AnswersFit(w)
  }

  /** Futures are only added or completed, each at most once, and results are never withdrawn. */
  ghost predicate WaitsGrow(w: Waits, n: Waits) {
    && |w.futures| <= |n.futures|
    && (forall f :: 0 <= f < |w.futures| ==> n.futures[f].kind == w.futures[f].kind && (!w.futures[f].state.Pending? ==> n.futures[f] == w.futures[f]))
    && (forall k :: k in w.results ==> k in n.results)
  }

  lemma {:induction false} CompleteAllAt(futures: seq<Future>, fs: seq<nat>, state: FutureState, f: nat)
    requires f < |futures| && !state.Pending?
    ensures CompleteAll(futures, fs, state)[f] ==
            if futures[f].state.Pending? && f in fs then futures[f].(state := state) else futures[f]
  {
    if fs != [] {
      CompleteAllAt(futures, fs[..|fs| - 1], state, f);
      assert fs == fs[..|fs| - 1] + [fs[|fs| - 1]];
    }
  }

  ghost predicate KindsKept(w: Waits, n: Waits) {
    && |w.futures| <= |n.futures|
    && forall f :: 0 <= f < |w.futures| ==> n.futures[f].kind == w.futures[f].kind
  }

  lemma ShorterListsAreTyped(w: Waits, n: Waits)
    requires ListsAreTyped(w) && KindsKept(w, n) && n.replies == w.replies
    requires forall k :: k in n.waiters ==> k in w.waiters && n.waiters[k] == w.waiters[k]
    ensures ListsAreTyped(n)
  {
  }

  /** The waiters listed under a key got the result, and only they. */
  ghost predicate Resolves(w: Waits, n: Waits, key: Id, r: TaskResult) {
    && |n.futures| == |w.futures|
    && forall f :: 0 <= f < |w.futures| ==>
         n.futures[f] == if w.futures[f].state.Pending? && f in WaitersAt(w, key)
                         then w.futures[f].(state := GotResult(r)) else w.futures[f]
  }

  lemma WaitersAreResolved(w: Waits, key: Id, r: TaskResult)
    ensures Resolves(w, ResolveWaiters(w, key, r), key, r)
  {
    var n := ResolveWaiters(w, key, r);
    forall f | 0 <= f < |w.futures|
      ensures n.futures[f] == if w.futures[f].state.Pending? && f in WaitersAt(w, key)
                              then w.futures[f].(state := GotResult(r)) else w.futures[f]
    {
      CompleteAllAt(w.futures, WaitersAt(w, key), GotResult(r), f);
    }
  }

  lemma ResolvedAnswersFit(w: Waits, n: Waits, key: Id, r: TaskResult)
    requires Resolves(w, n, key, r) && ListsAreTyped(w) && AnswersFit(w) && (key == Key(r.project, r.task) || key == r.task)
    ensures AnswersFit(n)
  {
    hide Key;
    forall f | 0 <= f < |n.futures|
      ensures IsAnswered(n.futures[f])
    {
      if n.futures[f] != w.futures[f] {
        var i :| 0 <= i < |w.waiters[key]| && w.waiters[key][i] == f;
        assert IsTaskWaitFor(w, w.waiters[key][i], key);
      }
    }
  }

  lemma ResolveWaitersKeeps(w: Waits, key: Id, r: TaskResult, results: map<Id, TaskResult>)
    requires WaitsOK(w) && (results == w.results || results == w.results[key := r])
    requires key == Key(r.project, r.task) || key == r.task
    ensures var n := ResolveWaiters(w, key, r).(results := results);
            && WaitsOK(n) && WaitsGrow(w, n) && n.replies == w.replies
            && (forall f :: 0 <= f < |w.futures| ==> n.futures[f].state == w.futures[f].state || n.futures[f].state == GotResult(r))
            && (forall f: nat :: IsPendingTaskWait(w, f) && w.futures[f].kind.key == key ==> n.futures[f].state == GotResult(r))
  {
    var n := ResolveWaiters(w, key, r).(results := results);
    WaitersAreResolved(w, key, r);
    hide CompleteAll, Key, IsAnswered;
    ShorterListsAreTyped(w, n);
    ResolvedAnswersFit(w, n, key, r);
    hide ListsAreTyped, AnswersFit;
  }

  /** Storing a result wakes every waiter of its task, scoped or bare, with that result. */
  lemma StoreResultKeeps(w: Waits, r: TaskResult)
    requires WaitsOK(w)
    ensures var n := StoreResult(w, r);
            && WaitsOK(n) && WaitsGrow(w, n) && n.replies == w.replies
            && Key(r.project, r.task) in n.results
            && (forall f :: 0 <= f < |w.futures| ==> n.futures[f].state == w.futures[f].state || n.futures[f].state == GotResult(r))
            && (forall f: nat :: IsPendingTaskWait(w, f) && w.futures[f].kind.key in {Key(r.project, r.task), r.task} ==>
                  n.futures[f].state == GotResult(r))
  {
    hide WaitsOK, PendingAreListed, ListsAreTyped, AnswersFit, CompleteAll, Key;
    var key := Key(r.project, r.task);
    var stored := w.(results := w.results[key := r]);
    var once := ResolveWaiters(stored, key, r);
    ResolveWaitersKeeps(w, key, r, stored.results);
    assert once == ResolveWaiters(w, key, r).(results := stored.results);
    ResolveWaitersKeeps(once, r.task, r, once.results);
    var n := StoreResult(w, r);
    assert n == ResolveWaiters(once, r.task, r).(results := once.results);
    forall f: nat | IsPendingTaskWait(w, f) && w.futures[f].kind.key in {key, r.task}
      ensures n.futures[f].state == GotResult(r)
    {
      if once.futures[f].state.Pending? {
        assert IsPendingTaskWait(once, f);
      }
    }
  }

  lemma ResolveReplyKeeps(w: Waits, correlation: Id, state: FutureState)
    requires WaitsOK(w) && (state.GotReply? || state.GotBlocker?)
    ensures var n := ResolveReply(w, correlation, state);
            && WaitsOK(n) && WaitsGrow(w, n) && n.replies == w.replies && n.results == w.results
            && (correlation in n.replies ==> !n.futures[n.replies[correlation]].state.Pending?)
  {
    var n := ResolveReply(w, correlation, state);
    assert KindsKept(w, n);
    ShorterListsAreTyped(w, n);
  }

  // ---------------------------------------------------------------------
  // The whole state
  // ---------------------------------------------------------------------

  ghost predicate RegistryOK(r: Registry) {
    && (forall i, j :: 0 <= i < j < |r.order| ==> r.order[i] != r.order[j])
    && (forall l :: l in r.order <==> l in r.byLease)
    && (forall l :: l in r.byLease ==> r.byLease[l].lease == l)
  }

  /** At most one active session per project and agent. */
  ghost predicate OneSessionPerAgent(x: map<Id, Session>) {
    forall a, b :: a in x && b in x && a != b && x[a].status.Active? && x[b].status.Active? ==>
      !(x[a].project == x[b].project && x[a].agent == x[b].agent)
  }

  ghost predicate Inv(s: State) {
    && WorkOK(s.work) && OneBusyPerWorker(s.work.byId)
    && BoardOK(s.board) && TalksOK(s.talks) && WaitsOK(s.waits)
    && RegistryOK(s.registry) && OneSessionPerAgent(s.registry.byLease)
  }

  /** What settling work does to the rest of the state. */
  ghost predicate Winds(s: State, n: State) {
    LessBusy(s.work, n.work) && Quiet(s.board, n.board) && TalksQuiet(s.talks, n.talks) && WaitsGrow(s.waits, n.waits)
  }

  lemma WindsTransitive(a: State, b: State, c: State)
    requires Inv(b) && Inv(c) && Winds(a, b) && Winds(b, c)
    ensures Winds(a, c)
  {
    QuietTransitive(a.board, b.board, c.board);
  }

  /** A message's task has a result and nobody waits for its reply any more. */
  ghost predicate WaitsSettled(w: Waits, env: Envelope) {
    && (env.task != [] ==> Key(env.project, env.task) in w.results)
    && (env.correlation in w.replies ==>
          && w.replies[env.correlation] < |w.futures|
          && !w.futures[w.replies[env.correlation]].state.Pending?)
  }

  lemma WaitsOfSettle(w: Waits, env: Envelope, status: MessageStatus, reply: FutureState)
    requires WaitsOK(w) && (reply.GotReply? || reply.GotBlocker?)
    ensures var n := SettleWaits(w, env, status, reply);
            && WaitsOK(n) && WaitsGrow(w, n) && n.replies == w.replies && WaitsSettled(n, env)
  {
    hide StoreResult, ResolveReply, Key, PendingAreListed;
    if env.task != [] {
      StoreResultKeeps(w, TaskResult(status, env.project, env.task));
    }
    ResolveReplyKeeps(if env.task == [] then w else StoreResult(w, TaskResult(status, env.project, env.task)), env.correlation, reply);
  }

  /** What a settled message leaves behind: a result, a finished job and no pending reply. */
  ghost predicate IsSettled(s: State, env: Envelope) {
    && WaitsSettled(s.waits, env)
    && (env.task != [] && Key(env.project, env.task) in s.board.jobs ==>
          IsTerminal(s.board.jobs[Key(env.project, env.task)].status))
  }

  lemma SettleKeeps(s: State, id: Id, status: MessageStatus, now: int)
    requires Inv(s) && id in s.work.byId && (status.Cancelled? || status.Timeout?)
    ensures var n := Settle(s, id, status, now);
            && Inv(n) && Winds(s, n) && n.registry == s.registry && n.waits.replies == s.waits.replies
            && IsSettled(n, s.work.byId[id].env)
            && n.work == SetStatus(s.work, id, status)
  {
    hide UpsertTask, Touch, SettleWaits, UpsertFails, Key, WaitsSettled;
    hide WaitsOK, WaitsGrow, BoardOK, Quiet, TalksOK, TalksQuiet, RegistryOK, OneSessionPerAgent, OneBusyPerWorker;
    var env := s.work.byId[id].env;
    EndingKeepsWork(s.work, id, status);
    UpsertKeeps(s.board, env, status, now);
    EndingNeverFails(s.board, env, status, now);
    TouchKeeps(s.talks, env, Some(TalkStatusOf(status)));
    WaitsOfSettle(s.waits, env, status, GotBlocker(status));
  }
}

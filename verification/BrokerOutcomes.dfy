/** What single broker operations achieve, and exactly when they raise after changing state. */
module BrokerOutcomes {
  import opened Basics
  import opened Jobs
  import opened BrokerState
  import opened BrokerOps
  import opened BrokerInvariants
  import opened BrokerSteps
  import opened BrokerActs

  lemma AskedToQueue(job: Job)
    requires JobShape(job)
    ensures Transition(job, MessageStatus.Queued).Err? <==> job.status.Delivered? || job.status.Running?
  {
  }

  /**
   * An enqueue that passes its checks raises exactly when its task was already handed out. The message
   * is stored and busy all the same; nothing else changes.
   */
  lemma EnqueueRaisesIffHandedOut(cfg: Config, s: State, env: Envelope, createWaiter: bool, now: int)
    requires Inv(s) && Refusal(cfg, s, env).None? && !IsTalk(env.kind)
    ensures var key := Key(env.project, env.task);
            var e := Enqueue(cfg, s, env, createWaiter, now);
            && (e.outcome.Raised? <==>
                  env.task != [] && key in s.board.jobs && (s.board.jobs[key].status.Delivered? || s.board.jobs[key].status.Running?))
            && env.id in e.state.work.byId && e.state.work.byId[env.id] == Message(env, MessageStatus.Queued, now)
            && (e.outcome.Raised? ==> e.state == s.(work := e.state.work))
  {
    hide Key, Refusal, Transition, WaitsOK, TalksOK, WorkOK, OneBusyPerWorker, RegistryOK, OneSessionPerAgent, Touch, UpsertTask, ReplyFuture;
    var job := JobFor(s.board, env);
    JobsAreShaped(s);
    if job.Some? {
      AskedToQueue(job.value);
    }
  }

  lemma AskedToDeliver(job: Job)
    requires JobShape(job)
    ensures var r := Transition(job, MessageStatus.Delivered);
            && (r.Err? <==> job.status.Running?)
            && (r.Ok? ==> r.value == if IsTerminal(job.status) then job else job.(status := JobStatus.Delivered))
  {
  }

  /**
   * Delivering a busy task message raises exactly when its job already runs, leaving only the message
   * marked delivered. Otherwise an unfinished job ends up delivered and leased: it keeps the lease it
   * had, or gets one at epoch 1 for the message's target, and that lease goes out with the message.
   */
  lemma DeliveryLeasesUnlessRunning(s: State, agent: Id, scope: Option<Id>, lease: Id, item: Envelope, now: int)
    requires Inv(s) && !PollRefused(s, agent, scope, lease)
    requires item.id in s.work.byId && IsBusy(s.work.byId[item.id].status)
    requires s.work.byId[item.id].env.kind.TaskMessage? && s.work.byId[item.id].env.task != []
    ensures var env := s.work.byId[item.id].env;
            var key := Key(env.project, env.task);
            var e := Deliver(s, agent, scope, lease, item, now);
            && (e.outcome.Raised? <==> key in s.board.jobs && s.board.jobs[key].status.Running?)
            && (e.outcome.Raised? ==> e.state == s.(work := SetStatus(s.work, item.id, MessageStatus.Delivered)))
            && (!e.outcome.Raised? ==>
                  && key in e.state.board.jobs
                  && e.outcome == Delivery(env.task, LeaseAt(e.state.board, key))
                  && (LeaseAt(s.board, key).Some? ==> LeaseAt(e.state.board, key) == LeaseAt(s.board, key))
                  && (LeaseAt(s.board, key).None? && env.target != [] && !IsTerminal(e.state.board.jobs[key].status) ==>
                        LeaseAt(e.state.board, key) == Some(Lease(env.target, now + 90000, 1, 15000)))
                  && (IsTerminal(e.state.board.jobs[key].status) || e.state.board.jobs[key].status.Delivered?))
  {
    hide Key, Transition, PollRefused, WaitsOK, TalksOK, WorkOK, OneBusyPerWorker, RegistryOK, OneSessionPerAgent, Touch;
    JobsAreShaped(s);
    AskedToDeliver(JobFor(s.board, s.work.byId[item.id].env).value);
  }

  /**
   * An accepted reply frees the worker, stores the task's result, finishes its job (a chat close leaves
   * it), and wakes every caller still waiting for the task with exactly that result, and the callers
   * waiting for the correlation with this reply.
   */
  lemma ReplyCompletesWork(s: State, messageId: Id, reply: Envelope, a: Assertion, sessionLease: Id, now: int)
    requires Inv(s) && SaveReply(s, messageId, reply, a, sessionLease, now).outcome.Accepted?
    ensures var n := SaveReply(s, messageId, reply, a, sessionLease, now).state;
            var key := Key(reply.project, reply.task);
            && (messageId in n.work.byId ==> !IsBusy(n.work.byId[messageId].status))
            && (reply.task != [] ==>
                  && key in n.waits.results && n.waits.results[key].project == reply.project && n.waits.results[key].task == reply.task
                  && n.waits.results[key].status == (if reply.kind.ChatClose? then MessageStatus.Closed
                                                     else if reply.status in {MessageStatus.Failed, MessageStatus.Timeout, MessageStatus.Cancelled}
                                                     then MessageStatus.Failed else MessageStatus.Done)
                  && (key in n.board.jobs && !reply.kind.ChatClose? ==> IsTerminal(n.board.jobs[key].status))
                  && (forall f: nat :: IsPendingTaskWait(s.waits, f) && s.waits.futures[f].kind.key in {key, reply.task} ==>
                        f < |n.waits.futures| && n.waits.futures[f].state == GotResult(n.waits.results[key])))
            && (reply.correlation in s.waits.replies && IsPending(s.waits, s.waits.replies[reply.correlation]) ==>
                  var f := s.waits.replies[reply.correlation];
                  f < |n.waits.futures| && n.waits.futures[f].state == GotReply(reply.id))
  {
    hide Key, HoldsLease, ReplyIsStale, UpsertTask, Touch, TalksOK, WorkOK, OneBusyPerWorker, RegistryOK, OneSessionPerAgent, SettleWaits, BoardOK, WaitsOK;
    if !reply.kind.ChatClose? {
      EndingNeverFails(s.board, reply, ReplyStatus(reply), now);
    }
    ReplyWakesWaiters(s.waits, reply, ReplyStatus(reply));
  }

  lemma ReplyWakesWaiters(w: Waits, reply: Envelope, status: MessageStatus)
    requires WaitsOK(w)
    ensures var n := SettleWaits(w, reply, status, GotReply(reply.id));
            var key := Key(reply.project, reply.task);
            && |n.futures| == |w.futures|
            && (reply.task != [] ==>
                  && key in n.results && n.results[key] == TaskResult(status, reply.project, reply.task)
                  && (forall f: nat :: IsPendingTaskWait(w, f) && w.futures[f].kind.key in {key, reply.task} ==>
                        n.futures[f].state == GotResult(n.results[key])))
            && (reply.correlation in w.replies && IsPending(w, w.replies[reply.correlation]) ==>
                  n.futures[w.replies[reply.correlation]].state == GotReply(reply.id))
  {
    hide Key;
    var r := TaskResult(status, reply.project, reply.task);
    var stored := if reply.task == [] then w else StoreResult(w, r);
    if reply.task != [] {
      StoreResultKeeps(w, r);
    }
    hide StoreResult;
    if reply.correlation in w.replies && IsPending(w, w.replies[reply.correlation]) {
      var f := w.replies[reply.correlation];
      assert w.futures[f].kind == ReplyWait(reply.correlation);
      assert IsAnswered(stored.futures[f]);
    }
  }

  lemma {:induction false} TargetsAreThoseNamed(w: Work, ids: seq<Id>, item: Id, scope: Option<Id>, id: Id)
    ensures id in CancelTargets(w, ids, item, scope) <==> id in ids && id in w.byId && IsCancelTarget(w.byId[id], item, scope)
    decreases |ids|
  {
    hide IsCancelTarget;
    if ids != [] {
      TargetsAreThoseNamed(w, ids[..|ids| - 1], item, scope, id);
      assert ids == ids[..|ids| - 1] + [ids[|ids| - 1]];
    }
  }

  lemma {:induction false} CancelAllDecides(s: State, ids: seq<Id>, now: int, id: Id)
    requires id in s.work.byId
    ensures var n := CancelAll(s, ids, now);
            id in n.work.byId && n.work.byId[id] == if id in ids then s.work.byId[id].(status := MessageStatus.Cancelled) else s.work.byId[id]
    decreases |ids|
  {
    hide UpsertTask, Touch, SettleWaits;
    if ids != [] {
      CancelAllDecides(s, ids[..|ids| - 1], now, id);
      assert ids == ids[..|ids| - 1] + [ids[|ids| - 1]];
    }
  }

  /**
   * A cancel ends exactly the busy messages its item names, by message, task or conversation id within
   * the project scope; every other message keeps its status.
   */
  lemma CancelDecides(s: State, item: Id, scope: Option<Id>, now: int, id: Id)
    requires Inv(s) && id in s.work.byId
    ensures var m := s.work.byId[id];
            var n := CancelWork(s, item, scope, now).state;
            id in n.work.byId
            && n.work.byId[id] == if IsCancelTarget(m, item, scope) then m.(status := MessageStatus.Cancelled) else m
  {
    hide IsCancelTarget, FindConversation, CancelTargets, CancelAll, TalksOK, BoardOK, WaitsOK, RegistryOK, OneBusyPerWorker, OneSessionPerAgent;
    var targets := CancelTargets(s.work, s.work.order, item, scope);
    TargetsAreThoseNamed(s.work, s.work.order, item, scope, id);
    CancelAllDecides(s, targets, now, id);
  }

  /** What a cancel ended has a result, a finished job and no pending reply wait. */
  lemma CancelSettles(s: State, item: Id, scope: Option<Id>, now: int, id: Id)
    requires Inv(s) && id in s.work.byId && IsCancelTarget(s.work.byId[id], item, scope)
    ensures IsSettled(CancelWork(s, item, scope, now).state, s.work.byId[id].env)
  {
    hide FindConversation, CancelTargets, CancelAll, IsSettled, Inv, Winds;
    var targets := CancelTargets(s.work, s.work.order, item, scope);
    WorkIsListed(s, id);
    TargetsAreThoseNamed(s.work, s.work.order, item, scope, id);
    CancelAllDecides(s, targets, now, id);
    CancelAllKeeps(s, targets, now);
  }

  lemma WorkIsListed(s: State, id: Id)
    requires Inv(s) && id in s.work.byId
    ensures id in s.work.order
  {
  }

  /**
   * Reclaiming a leased job moves it to the next epoch and the new holder exactly when its lease has
   * expired; before that it returns the lease to its holder and refuses anyone else. It never fails for
   * the job's status.
   */
  lemma ReclaimTakesExpiredLeases(s: State, task: Id, holder: Id, scope: Option<Id>, now: int)
    requires Inv(s) && FindJob(s.board, task, scope).Some?
    requires LeaseAt(s.board, FindJob(s.board, task, scope).value).Some?
    ensures var key := FindJob(s.board, task, scope).value;
            var l := LeaseAt(s.board, key).value;
            var e := ReclaimJob(s, task, holder, scope, now);
            if now >= l.expiresAt then
              && LeaseAt(e.state.board, key).Some?
              && var m := LeaseAt(e.state.board, key).value;
                 && e.outcome == LeaseReclaimed(m, true)
                 && m.holder == holder && m.epoch == l.epoch + 1 && m.expiresAt > now
                 && m.heartbeatMs == Interval(l.heartbeatMs) && m.expiresAt == now + 6 * m.heartbeatMs
                 && e.state.board.jobs[key].status.Running?
            else e.state == s && e.outcome == (if l.holder == holder then LeaseReclaimed(l, false) else Raised(LeaseConflict))
  {
    hide FindJob, Inv, StoreLease, Reclaim;
    JobsAreShaped(s);
    FoundJobIsStored(s.board, task, scope);
    var key := FindJob(s.board, task, scope).value;
    var lease := LeaseAt(s.board, key).value;
    ReclaimRaisesEpoch(lease, holder, now);
    LeaseIntervals(lease, holder, lease.heartbeatMs, now);
    StoreLeaseKeeps(s, key, JobStatus.Running, Reclaim(lease, holder, now));
  }

  /** The heartbeat interval a lease runs on: 15 s if none is given, and never under one second. */
  function Interval(heartbeatMs: int): int {
    if heartbeatMs == 0 then 15000 else if heartbeatMs < 1000 then 1000 else heartbeatMs
  }

  /** A lease lasts six of its intervals; renewal may change the interval, a reclaim keeps it. */
  lemma LeaseIntervals(lease: Lease, holder: Id, heartbeatMs: int, now: int)
    ensures var r := Renew(lease, heartbeatMs, now);
            r.heartbeatMs == Interval(if heartbeatMs != 0 then heartbeatMs else lease.heartbeatMs) && r.expiresAt == now + 6 * r.heartbeatMs
    ensures var c := Reclaim(lease, holder, now);
            c.heartbeatMs == Interval(lease.heartbeatMs) && c.expiresAt == now + 6 * c.heartbeatMs
  {
  }

  // ---------------------------------------------------------------------
  // Sessions, heartbeats and conversations
  // ---------------------------------------------------------------------

  /** A heartbeat keeps an active session from expiring for its whole grace, and touches no other session. */
  lemma HeartbeatDefersExpiry(cfg: Config, s: State, lease: Id, scope: Option<Id>, worker: Id, now: int, later: int)
    requires SessionFor(s, lease, scope).Some? && s.registry.byLease[lease].status.Active?
    ensures var n := HeartbeatSession(s, lease, scope, worker, now).state;
            && lease in n.registry.byLease && n.registry.byLease[lease].status.Active?
            && (IsStale(cfg, n.registry.byLease[lease], later) <==>
                  var own := s.registry.byLease[lease].graceSeconds; later >= now + 1000 * (if own != 0 then own else cfg.graceSeconds))
            && (forall l :: l in s.registry.byLease && l != lease ==> l in n.registry.byLease && n.registry.byLease[l] == s.registry.byLease[l])
  {
  }

  /** Releasing an active session cancels exactly its agent's busy work in its project. */
  lemma ReleaseEndsAgentsWork(s: State, lease: Id, scope: Option<Id>, now: int, id: Id)
    requires Inv(s) && SessionFor(s, lease, scope).Some? && s.registry.byLease[lease].status.Active? && id in s.work.byId
    ensures var x := s.registry.byLease[lease];
            var n := ReleaseSession(s, lease, scope, now).state;
            && lease in n.registry.byLease && n.registry.byLease[lease].status.Released?
            && id in n.work.byId
            && n.work.byId[id] == if ConcernsAgent(s.work.byId[id], x.agent, x.project)
                                  then s.work.byId[id].(status := MessageStatus.Cancelled) else s.work.byId[id]
  {
    hide WaitsOK, BoardOK, TalksOK, OneBusyPerWorker, RegistryOK, OneSessionPerAgent, SettleAgent, ConcernsAgent;
    var x := s.registry.byLease[lease];
    SettleAgentDecides(s, s.work.order, x.agent, x.project, now, id);
  }

  /** A job heartbeat succeeds exactly for the present holder and epoch, and only moves the lease's expiry and interval. */
  lemma HeartbeatRenewsIffHolder(s: State, task: Id, holder: Id, epoch: int, scope: Option<Id>, heartbeatMs: int, now: int)
    requires Inv(s) && FindJob(s.board, task, scope).Some?
    ensures var key := FindJob(s.board, task, scope).value;
            var e := HeartbeatJob(s, task, holder, epoch, scope, heartbeatMs, now);
            && (e.outcome.LeaseRenewed? <==> LeaseAt(s.board, key).Some? && Matches(LeaseAt(s.board, key).value, holder, epoch))
            && (!e.outcome.LeaseRenewed? ==> e.state == s)
            && (e.outcome.LeaseRenewed? ==>
                  && LeaseAt(e.state.board, key) == Some(e.outcome.lease)
                  && Matches(e.outcome.lease, holder, epoch)
                  && e.outcome.lease.heartbeatMs == Interval(if heartbeatMs != 0 then heartbeatMs else LeaseAt(s.board, key).value.heartbeatMs)
                  && e.outcome.lease.expiresAt == now + 6 * e.outcome.lease.heartbeatMs
                  && e.state.board.jobs[key].status == s.board.jobs[key].status)
  {
    hide Inv, FindJob, StoreLease, IsJobFor;
    JobsAreShaped(s);
    FoundJobIsStored(s.board, task, scope);
    var key := FindJob(s.board, task, scope).value;
    if s.board.jobs[key].lease.Some? {
      var lease := s.board.jobs[key].lease.value;
      RenewKeepsHolder(lease, heartbeatMs, now);
      LeaseIntervals(lease, holder, heartbeatMs, now);
      hide Renew;
      StoreLeaseKeeps(s, key, s.board.jobs[key].status, Renew(lease, heartbeatMs, now));
    }
  }

  /** Closing a conversation that is found closes its record and finishes its talk job. */
  lemma CloseEndsConversation(s: State, id: Id, env: Envelope)
    requires Inv(s) && id != [] && CloseConversation(s, id, env).outcome.Accepted?
    ensures var t := CloseConversation(s, id, env).state.talks;
            exists project :: Key(project, id) in t.conversations && Key(project, id) in t.jobs
                              && t.conversations[Key(project, id)].status.Closed? && IsTerminal(t.jobs[Key(project, id)].status)
  {
    hide Key, FindConversation, WaitsOK, BoardOK, WorkOK, OneBusyPerWorker, RegistryOK, OneSessionPerAgent;
    var scoped := FindConversation(s.talks, id, Some(env.project));
    var c := if scoped.Some? then scoped.value else FindConversation(s.talks, id, None).value;
    var turn := Min(if env.turn < c.turn + 1 then c.turn + 1 else env.turn, c.maxTurns);
    var close := TalkEnvelope(c, id, ChatClose, turn).(
      sender := if env.sender != [] then env.sender else c.sender,
      target := if env.target != [] then env.target else c.target);
    hide Touch;
    TouchedCloses(s.talks, close);
  }

  lemma TouchedCloses(t: Talks, close: Envelope)
    requires TalksOK(t) && close.kind.ChatClose? && close.conversation != []
    ensures var n := Touch(t, close, Some(ConversationStatus.Closed));
            var key := Key(close.project, close.conversation);
            && key in n.conversations && key in n.jobs
            && n.conversations[key].status.Closed? && IsTerminal(n.jobs[key].status)
  {
    hide Key;
    TalkTransitionIsTotal(TalkJobFor(t, close), ConversationStatus.Closed);
  }

  /** Activity on busy work marks its message as running, and its task's job too unless that has finished. */
  lemma ActivityRunsWork(s: State, a: Activity, now: int)
    requires Inv(s) && RecordActivity(s, a, now).outcome.Accepted? && ActivityTarget(s.work, a).Some?
    requires var id := ActivityTarget(s.work, a).value; id in s.work.byId && IsBusy(s.work.byId[id].status)
    ensures var id := ActivityTarget(s.work, a).value;
            var env := s.work.byId[id].env;
            var key := Key(env.project, env.task);
            var n := RecordActivity(s, a, now).state;
            && n.work == SetStatus(s.work, id, MessageStatus.Running)
            && (env.kind.TaskMessage? && env.task != [] ==>
                  && key in n.board.jobs
                  && (n.board.jobs[key].status.Running? || (key in s.board.jobs && IsTerminal(s.board.jobs[key].status))))
  {
    hide Key, HoldsLease, ActivityTarget, WaitsOK, TalksOK, WorkOK, OneBusyPerWorker, RegistryOK, OneSessionPerAgent, Transition, FreshLease;
    var env := s.work.byId[ActivityTarget(s.work, a).value].env;
    JobsAreShaped(s);
    if env.kind.TaskMessage? && env.task != [] {
      AskedToRun(JobFor(s.board, env).value);
    }
  }

  lemma AskedToRun(job: Job)
    ensures var r := Transition(job, MessageStatus.Running);
            r.Ok? && (r.value.status.Running? || (r.value == job && IsTerminal(job.status)))
  {
  }

  /** A reply timeout marks the correlation's first message as timed out and finishes its job, but stores no result. */
  lemma ReplyTimeoutEndsWork(s: State, correlation: Id, now: int)
    requires Inv(s) && FirstCorrelated(s.work, s.work.order, correlation).Some?
    requires FirstCorrelated(s.work, s.work.order, correlation).value in s.work.byId
    ensures var id := FirstCorrelated(s.work, s.work.order, correlation).value;
            var env := s.work.byId[id].env;
            var key := Key(env.project, env.task);
            var n := TimeoutReply(s, correlation, now).state;
            && n.work == SetStatus(s.work, id, MessageStatus.Timeout) && n.waits == s.waits
            && (env.task != [] && key in s.board.jobs ==>
                  && key in n.board.jobs
                  && n.board.jobs[key].status == if IsTerminal(s.board.jobs[key].status) then s.board.jobs[key].status else JobStatus.Timeout)
  {
    hide Key, FirstCorrelated, UpsertTask, Touch, Inv, Transition;
    var env := s.work.byId[FirstCorrelated(s.work, s.work.order, correlation).value].env;
    JobsAreShaped(s);
    if JobFor(s.board, env).Some? {
      TimingOut(s.board, env, now);
    }
  }

  lemma TimingOut(b: Board, env: Envelope, now: int)
    requires JobFor(b, env).Some? && !JobFor(b, env).value.status.Reclaimable?
    ensures var n := UpsertTask(b, env, MessageStatus.Timeout, now);
            var key := Key(env.project, env.task);
            var before := JobFor(b, env).value.status;
            key in n.jobs && n.jobs[key].status == if IsTerminal(before) then before else JobStatus.Timeout
  {
    hide Key;
  }
}

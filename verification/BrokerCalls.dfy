/** What deliveries, status updates, telemetry, cancels, closes and lease calls answer and store. */
module BrokerCalls {
  import opened Basics
  import opened Jobs
  import opened BrokerState
  import opened BrokerOps
  import opened BrokerInvariants
  import opened BrokerActs
  import opened BrokerOutcomes
  import opened BrokerAnswers

  /** One message got a status; the others are as they were. */
  ghost predicate OnlySets(w: Work, n: Work, id: Id, status: MessageStatus) {
    && id in w.byId && id in n.byId && n.byId[id] == w.byId[id].(status := status)
    && n.order == w.order
    && (forall other :: other != id ==> (other in n.byId <==> other in w.byId))
    && (forall other :: other != id && other in w.byId ==> n.byId[other] == w.byId[other])
  }

  // ---------------------------------------------------------------------
  // Deliveries and status updates
  // ---------------------------------------------------------------------

  /** The lease is that of an active session of the agent, in the project if one is given. */
  predicate SessionIsFor(r: Registry, lease: Id, agent: Id, scope: Option<Id>) {
    && lease in r.byLease && r.byLease[lease].status.Active? && r.byLease[lease].agent == agent
    && (scope.Some? ==> r.byLease[lease].project == scope.value)
  }

  lemma PollReading(s: State, agent: Id, scope: Option<Id>, lease: Id)
    ensures PollRefused(s, agent, scope, lease) <==>
            (exists l :: SessionIsFor(s.registry, l, agent, scope)) && !(lease != [] && SessionIsFor(s.registry, lease, agent, scope))
  {
    forall l | l in s.registry.byLease
      ensures IsActiveFor(s.registry.byLease[l], agent, scope) <==> SessionIsFor(s.registry, l, agent, scope)
    {
    }
    hide IsActiveFor;
    assert HasActiveSession(s.registry, agent, scope) <==> exists l :: SessionIsFor(s.registry, l, agent, scope);
  }

  /**
   * An agent that has an active session polls with its lease or is refused. An item the store does not
   * know goes out as it is, one that has ended is skipped, and any other is marked delivered.
   */
  lemma DeliveryAnswers(s: State, agent: Id, scope: Option<Id>, lease: Id, item: Envelope, now: int)
    ensures var e := Deliver(s, agent, scope, lease, item, now);
            if (exists l :: SessionIsFor(s.registry, l, agent, scope)) && !(lease != [] && SessionIsFor(s.registry, lease, agent, scope))
            then e == Effect(s, Raised(LeaseConflict))
            else if item.id !in s.work.byId then e == Effect(s, Delivery(item.task, None))
            else if HasEnded(s.work.byId[item.id].status) then e == Effect(s, Skipped)
            else
              var env := s.work.byId[item.id].env;
              && OnlySets(s.work, e.state.work, item.id, MessageStatus.Delivered)
              && (e.outcome == Raised(IllegalTransition) || (e.outcome.Delivery? && e.outcome.task == env.task))
              && (!env.kind.TaskMessage? || env.task == [] ==> e.outcome == Delivery(env.task, None) && e.state.board == s.board)
  {
    PollReading(s, agent, scope, lease);
    if item.id in s.work.byId {
      BusyHasNotEnded(s.work.byId[item.id].status);
    }
    hide PollRefused, SessionIsFor, HasEnded, IsBusy, Key, UpsertTask, UpsertFails, Touch;
  }

  lemma HoldingIsCurrent(r: Registry, agent: Id, project: Id, lease: Id)
    ensures HoldsLease(r, agent, Some(project), lease) <==> SessionIsCurrent(r, agent, project, lease)
  {
  }

  /** A status update stores the status it was given, unless the message is unknown, not the session's, or over. */
  lemma UpdateDecides(s: State, messageId: Id, status: MessageStatus, lease: Id, now: int)
    ensures var e := UpdateStatus(s, messageId, status, lease, now);
            if messageId !in s.work.byId then e == Effect(s, Raised(NotFound))
            else if lease != [] && !SessionIsCurrent(s.registry, s.work.byId[messageId].env.target, s.work.byId[messageId].env.project, lease)
            then e == Effect(s, Raised(LeaseConflict))
            else if HasEnded(s.work.byId[messageId].status) then e == Effect(s, Accepted)
            else OnlySets(s.work, e.state.work, messageId, status) && (e.outcome.Accepted? || e.outcome == Raised(IllegalTransition))
  {
    if messageId in s.work.byId {
      BusyHasNotEnded(s.work.byId[messageId].status);
      HoldingIsCurrent(s.registry, s.work.byId[messageId].env.target, s.work.byId[messageId].env.project, lease);
    }
    hide HasEnded, IsBusy, UpsertTask, UpsertFails, Touch, Key, HoldsLease, SessionIsCurrent;
  }

  /** Reported as running, a busy task message never fails: its job runs unless it had finished, and a talk stays open. */
  lemma RunningUpdateRuns(s: State, messageId: Id, status: MessageStatus, now: int)
    requires Inv(s) && messageId in s.work.byId && !HasEnded(s.work.byId[messageId].status) && (status.Running? || status.InProgress?)
    ensures var e := UpdateStatus(s, messageId, status, [], now);
            var env := s.work.byId[messageId].env;
            var key := Key(env.project, env.task);
            && e.outcome.Accepted?
            && (env.kind.TaskMessage? && env.task != [] ==>
                  && key in e.state.board.jobs
                  && e.state.board.jobs[key].status == (if key in s.board.jobs && IsTerminal(s.board.jobs[key].status) then s.board.jobs[key].status else JobStatus.Running))
            && (IsTalkMessage(env) ==> IsTouched(s.talks, e.state.talks, env, Some(Open)))
  {
    BusyHasNotEnded(s.work.byId[messageId].status);
    var env := s.work.byId[messageId].env;
    JobsAreShaped(s);
    TalksAreFine(s);
    if IsTalkMessage(env) {
      TouchDecides(s.talks, env, Some(Open));
    }
    if JobFor(s.board, env).Some? {
      JobRuns(JobFor(s.board, env).value, status);
      JobIsAsked(s.board, env, status, now);
    }
    hide Inv, HasEnded, IsBusy, UpsertTask, Touch, Key, IsTouched, Transition, JobFor;
  }

  lemma JobRuns(job: Job, status: MessageStatus)
    requires status.Running? || status.InProgress?
    ensures var r := Transition(job, status);
            r.Ok? && r.value.status == if IsTerminal(job.status) then job.status else JobStatus.Running
  {
  }

  // ---------------------------------------------------------------------
  // Transcript and telemetry
  // ---------------------------------------------------------------------

  /** Whoever asserts an epoch here has to hold a lease of that epoch, and the task has to have one. */
  predicate SpeaksAsHolder(b: Board, project: Id, task: Id, a: Assertion) {
    a.Asserted? ==>
      && Key(project, task) in b.jobs && b.jobs[Key(project, task)].lease.Some?
      && b.jobs[Key(project, task)].lease.value.holder == a.holder && b.jobs[Key(project, task)].lease.value.epoch == a.epoch
  }

  /** A transcript append passes exactly from a current session, the present holder, and before the task has finished. */
  lemma TranscriptAnswers(s: State, project: Id, task: Id, agent: Id, lease: Id, a: Assertion)
    ensures TranscriptFence(s, project, task, agent, lease, a) ==
            Effect(s, if && (lease == [] || SessionIsCurrent(s.registry, agent, project, lease))
                         && SpeaksAsHolder(s.board, project, task, a)
                         && !(Key(project, task) in s.board.jobs && IsTerminal(s.board.jobs[Key(project, task)].status))
                      then Accepted else Raised(LeaseConflict))
  {
    hide Key;
  }

  /** Telemetry is kept exactly for a known, unfinished task, from a current session and the present holder, with that epoch and holder. */
  lemma TelemetryDecides(s: State, project: Id, task: Id, agent: Id, lease: Id, a: Assertion, toolCount: int)
    ensures var e := RecordTelemetry(s, project, task, agent, lease, a, toolCount);
            var key := Key(project, task);
            if && task != [] && (lease == [] || SessionIsCurrent(s.registry, agent, project, lease)) && SpeaksAsHolder(s.board, project, task, a)
               && key in s.board.tasks && !IsTerminal(s.board.tasks[key].status)
            then
              && e.outcome.Accepted? && e.state == s.(telemetry := e.state.telemetry)
              && key in e.state.telemetry
              && var t := e.state.telemetry[key];
                 (if a.Asserted? then t.epoch == a.epoch && t.holder == a.holder else t.epoch == 0 && t.holder == [])
                 && t.toolCount >= 0 && (toolCount >= 0 ==> t.toolCount == toolCount) && (toolCount < 0 ==> t.toolCount == 0)
                 && (forall k :: k != key ==> (k in e.state.telemetry <==> k in s.telemetry))
                 && (forall k :: k != key && k in s.telemetry ==> e.state.telemetry[k] == s.telemetry[k])
            else e == Effect(s, Raised(TelemetryRejected))
  {
    hide Key;
  }

  // ---------------------------------------------------------------------
  // Cancel and close
  // ---------------------------------------------------------------------

  /** The one conversation an id names: the project's own, or without a project the only one of that id. */
  ghost predicate IsTalkNamed(t: Talks, id: Id, scope: Option<Id>, key: Id) {
    && key in t.conversations
    && (scope.Some? ==> key == Key(scope.value, id))
    && (scope.None? ==> t.conversations[key].id == id && forall k :: k in t.conversations && k != key ==> t.conversations[k].id != id)
  }

  lemma FindsTalk(t: Talks, id: Id, scope: Option<Id>)
    ensures forall k :: IsTalkNamed(t, id, scope, k) ==> FindConversation(t, id, scope) == Some(t.conversations[k])
    ensures (forall k :: !IsTalkNamed(t, id, scope, k)) ==> FindConversation(t, id, scope).None?
  {
    forall k
      ensures IsConversationFor(t, id, scope, k) <==> IsTalkNamed(t, id, scope, k)
    {
    }
    hide Key;
    forall k, j | IsTalkNamed(t, id, scope, k) && IsTalkNamed(t, id, scope, j)
      ensures k == j
    {
    }
  }

  predicate IsNamedWork(m: Message, item: Id, scope: Option<Id>) {
    && !HasEnded(m.status) && (m.env.id == item || m.env.task == item || m.env.conversation == item)
    && (scope.Some? ==> m.env.project == scope.value)
  }

  lemma NamedWorkIsTarget(m: Message, item: Id, scope: Option<Id>)
    ensures IsCancelTarget(m, item, scope) <==> IsNamedWork(m, item, scope)
  {
    BusyHasNotEnded(m.status);
  }

  /**
   * A cancel answers with exactly the unfinished messages its item names; if there are none, with the
   * item itself when it names one open conversation, which it cancels; otherwise it raises.
   */
  lemma CancelAnswers(s: State, item: Id, scope: Option<Id>, now: int)
    requires Inv(s)
    ensures var e := CancelWork(s, item, scope, now);
            if exists id :: id in s.work.byId && IsNamedWork(s.work.byId[id], item, scope) then
              && e.outcome.CancelledItems?
              && (forall id :: id in e.outcome.items <==> id in s.work.byId && IsNamedWork(s.work.byId[id], item, scope))
            else if exists k :: IsTalkNamed(s.talks, item, scope, k) && s.talks.conversations[k].status.Open? then
              e.outcome == CancelledItems([item]) && e.state == s.(talks := e.state.talks)
            else e == Effect(s, Raised(NotFound))
  {
    var targets := CancelTargets(s.work, s.work.order, item, scope);
    forall id
      ensures id in targets <==> id in s.work.byId && IsNamedWork(s.work.byId[id], item, scope)
    {
      TargetsAreThoseNamed(s.work, s.work.order, item, scope, id);
      if id in s.work.byId {
        NamedWorkIsTarget(s.work.byId[id], item, scope);
        WorkIsListed(s, id);
      }
    }
    FindsTalk(s.talks, item, scope);
    hide Inv, CancelTargets, FindConversation, IsTalkNamed, IsNamedWork, CancelAll, Touch;
    if targets != [] {
      assert targets[0] in targets;
    }
  }

  /** The conversation such a cancel names is cancelled, and its talk job unless that had finished. */
  lemma CancelEndsTalk(s: State, item: Id, scope: Option<Id>, now: int, key: Id)
    requires Inv(s) && item != [] && (forall id :: id in s.work.byId ==> !IsNamedWork(s.work.byId[id], item, scope))
    requires IsTalkNamed(s.talks, item, scope, key) && s.talks.conversations[key].status.Open?
    requires key == Key(s.talks.conversations[key].project, item)
    ensures var n := CancelWork(s, item, scope, now).state.talks;
            && key in n.conversations && n.conversations[key].status.Cancelled? && key in n.jobs
            && n.conversations[key].turn == s.talks.conversations[key].turn
            && n.jobs[key].status == if key in s.talks.jobs && IsTerminal(s.talks.jobs[key].status) then s.talks.jobs[key].status else JobStatus.Cancelled
  {
    var c := s.talks.conversations[key];
    hide Inv, IsTalkNamed, IsNamedWork, CancelWork, Touch, Key, IsTouched;
    var env := TalkEnvelope(c, item, ChatTurn, c.turn);
    TalksAreFine(s);
    TouchDecides(s.talks, env, Some(ConversationStatus.Cancelled));
    TouchedIsRecorded(s.talks, Touch(s.talks, env, Some(ConversationStatus.Cancelled)), env, Some(ConversationStatus.Cancelled));
    CancelTouches(s, item, scope, now, key);
  }

  lemma CancelTouches(s: State, item: Id, scope: Option<Id>, now: int, key: Id)
    requires forall id :: id in s.work.byId ==> !IsNamedWork(s.work.byId[id], item, scope)
    requires IsTalkNamed(s.talks, item, scope, key) && s.talks.conversations[key].status.Open?
    ensures var c := s.talks.conversations[key];
            CancelWork(s, item, scope, now).state.talks ==
            Touch(s.talks, TalkEnvelope(c, item, ChatTurn, c.turn), Some(ConversationStatus.Cancelled))
  {
    FindsTalk(s.talks, item, scope);
    NoTargets(s, item, scope);
    hide CancelTargets, FindConversation, IsNamedWork, CancelAll, Touch, Key;
  }

  lemma NoTargets(s: State, item: Id, scope: Option<Id>)
    requires forall id :: id in s.work.byId ==> !IsNamedWork(s.work.byId[id], item, scope)
    ensures CancelTargets(s.work, s.work.order, item, scope) == []
  {
    var targets := CancelTargets(s.work, s.work.order, item, scope);
    if targets != [] {
      var id := targets[0];
      TargetsAreThoseNamed(s.work, s.work.order, item, scope, id);
      NamedWorkIsTarget(s.work.byId[id], item, scope);
    }
  }

  /** A close succeeds exactly when its id names a conversation, of the message's project or else of any. */
  lemma CloseAnswers(s: State, id: Id, env: Envelope)
    ensures var e := CloseConversation(s, id, env);
            if (exists k :: IsTalkNamed(s.talks, id, Some(env.project), k)) || exists k :: IsTalkNamed(s.talks, id, None, k)
            then e.outcome.Accepted? && e.state == s.(talks := e.state.talks)
            else e == Effect(s, Raised(NotFound))
  {
    FindsTalk(s.talks, id, Some(env.project));
    FindsTalk(s.talks, id, None);
    hide FindConversation, IsTalkNamed, Touch;
  }

  /** The conversation a close names, of the message's project if that has one of the id. */
  ghost predicate IsTalkToClose(t: Talks, id: Id, env: Envelope, key: Id) {
    if exists k :: IsTalkNamed(t, id, Some(env.project), k) then IsTalkNamed(t, id, Some(env.project), key) else IsTalkNamed(t, id, None, key)
  }

  /**
   * It is closed, one turn on or at the turn of the closing message if that is later, but never beyond its
   * limit; its talk job is closed unless it had finished.
   */
  lemma CloseDecides(s: State, id: Id, env: Envelope, key: Id)
    requires Inv(s) && id != [] && IsTalkToClose(s.talks, id, env, key)
    requires key in s.talks.conversations && key == Key(s.talks.conversations[key].project, id)
    ensures var c := s.talks.conversations[key];
            var n := CloseConversation(s, id, env).state.talks;
            && key in n.conversations && n.conversations[key].status.Closed? && key in n.jobs
            && (n.conversations[key].turn == c.maxTurns || (n.conversations[key].turn <= c.maxTurns && n.conversations[key].turn in {env.turn, c.turn + 1}))
            && (c.turn < c.maxTurns && env.turn <= c.turn + 1 ==> n.conversations[key].turn == c.turn + 1)
            && n.jobs[key].status == if key in s.talks.jobs && IsTerminal(s.talks.jobs[key].status) then s.talks.jobs[key].status else JobStatus.Closed
  {
    hide Inv, Touch, Key, IsTouched, IsTalkToClose, CloseConversation;
    TalksAreFine(s);
    var c := s.talks.conversations[key];
    var close := ClosingEnvelope(c, id, env);
    CloseTouches(s, id, env, key);
    TouchDecides(s.talks, close, Some(ConversationStatus.Closed));
    TouchedIsRecorded(s.talks, Touch(s.talks, close, Some(ConversationStatus.Closed)), close, Some(ConversationStatus.Closed));
  }

  function ClosingEnvelope(c: Conversation, id: Id, env: Envelope): Envelope {
    var turn := Min(if env.turn < c.turn + 1 then c.turn + 1 else env.turn, c.maxTurns);
    TalkEnvelope(c, id, ChatClose, turn).(
      sender := if env.sender != [] then env.sender else c.sender,
      target := if env.target != [] then env.target else c.target)
  }

  lemma CloseTouches(s: State, id: Id, env: Envelope, key: Id)
    requires IsTalkToClose(s.talks, id, env, key)
    ensures key in s.talks.conversations
    ensures CloseConversation(s, id, env).state.talks ==
            Touch(s.talks, ClosingEnvelope(s.talks.conversations[key], id, env), Some(ConversationStatus.Closed))
  {
    FindsTalk(s.talks, id, Some(env.project));
    FindsTalk(s.talks, id, None);
    TalkToCloseIsThere(s.talks, id, env, key);
    hide FindConversation, Touch, Key, IsTalkNamed, Min;
  }

  lemma TalkToCloseIsThere(t: Talks, id: Id, env: Envelope, key: Id)
    requires IsTalkToClose(t, id, env, key)
    ensures key in t.conversations
  {
  }

  // ---------------------------------------------------------------------
  // Lookups
  // ---------------------------------------------------------------------

  /** The one job a task id names: the project's own if it has one, else the only one whose key is for the id. */
  ghost predicate IsJobNamed(b: Board, task: Id, scope: Option<Id>, key: Id) {
    if scope.Some? && Key(scope.value, task) in b.jobs then key == Key(scope.value, task)
    else key in b.jobs && IsKeyFor(key, task) && forall k :: k in b.jobs && k != key ==> !IsKeyFor(k, task)
  }

  lemma FindsJob(b: Board, task: Id, scope: Option<Id>)
    ensures forall k :: FindJob(b, task, scope) == Some(k) <==> IsJobNamed(b, task, scope, k)
  {
    forall k
      ensures Names(k, task) <==> IsKeyFor(k, task)
    {
      NamesIsKeyFor(k, task);
    }
    hide Names, IsKeyFor, Key;
    forall k
      ensures IsJobFor(b, task, scope, k) <==> IsJobNamed(b, task, scope, k)
    {
    }
    forall k, j | IsJobNamed(b, task, scope, k) && IsJobNamed(b, task, scope, j)
      ensures k == j
    {
    }
    hide IsJobFor, IsJobNamed;
  }

  /** Lease calls raise for a task without a job, or whose job has no such lease, and then change nothing. */
  lemma LeaseCallsAnswer(s: State, task: Id, holder: Id, epoch: int, scope: Option<Id>, heartbeatMs: int, now: int)
    ensures (forall k :: !IsJobNamed(s.board, task, scope, k)) ==>
              && HeartbeatJob(s, task, holder, epoch, scope, heartbeatMs, now) == Effect(s, Raised(NotFound))
              && ReclaimJob(s, task, holder, scope, now) == Effect(s, Raised(NotFound))
    ensures forall k :: IsJobNamed(s.board, task, scope, k) ==>
              && k in s.board.jobs
              && (s.board.jobs[k].lease.None? ==> ReclaimJob(s, task, holder, scope, now) == Effect(s, Raised(LeaseConflict)))
              && (s.board.jobs[k].lease.None? || s.board.jobs[k].lease.value.holder != holder || s.board.jobs[k].lease.value.epoch != epoch ==>
                    HeartbeatJob(s, task, holder, epoch, scope, heartbeatMs, now) == Effect(s, Raised(LeaseConflict)))
  {
    FindsJob(s.board, task, scope);
    forall k | IsJobNamed(s.board, task, scope, k)
      ensures k in s.board.jobs
    {
    }
    hide FindJob, IsJobNamed, Renew, Reclaim, StoreLease;
  }

  /** A reply timeout concerns the first message stored under the correlation. */
  lemma {:induction false} FindsFirstCorrelated(w: Work, ids: seq<Id>, correlation: Id)
    requires forall i :: 0 <= i < |ids| ==> ids[i] in w.byId
    ensures match FirstCorrelated(w, ids, correlation)
            case None => forall i :: 0 <= i < |ids| ==> w.byId[ids[i]].env.correlation != correlation
            case Some(id) => exists i :: 0 <= i < |ids| && ids[i] == id && w.byId[id].env.correlation == correlation
                                         && forall j :: 0 <= j < i ==> w.byId[ids[j]].env.correlation != correlation
  {
    if ids != [] && w.byId[ids[0]].env.correlation != correlation {
      var rest := ids[1..];
      assert forall i :: 0 <= i < |rest| ==> rest[i] == ids[i + 1];
      FindsFirstCorrelated(w, rest, correlation);
      var found := FirstCorrelated(w, rest, correlation);
      if found.Some? {
        var i :| 0 <= i < |rest| && rest[i] == found.value && forall j :: 0 <= j < i ==> w.byId[rest[j]].env.correlation != correlation;
        assert ids[i + 1] == found.value;
        forall j | 0 <= j < i + 1
          ensures w.byId[ids[j]].env.correlation != correlation
        {
          assert j > 0 ==> ids[j] == rest[j - 1];
        }
      } else {
        forall i | 0 <= i < |ids|
          ensures w.byId[ids[i]].env.correlation != correlation
        {
          assert i > 0 ==> ids[i] == rest[i - 1];
        }
      }
    }
  }

  /** The timed-out message's conversation times out too, unless the message was its last turn anyway. */
  lemma ReplyTimeoutEndsTalk(s: State, correlation: Id, now: int, id: Id)
    requires Inv(s) && FirstCorrelated(s.work, s.work.order, correlation) == Some(id) && id in s.work.byId && IsTalkMessage(s.work.byId[id].env)
    ensures IsTouched(s.talks, TimeoutReply(s, correlation, now).state.talks, s.work.byId[id].env, Some(ConversationStatus.Timeout))
  {
    hide Inv, FirstCorrelated, UpsertTask, Touch, Key, IsTouched;
    TalksAreFine(s);
    TouchDecides(s.talks, s.work.byId[id].env, Some(ConversationStatus.Timeout));
  }

  /** An activity speaks about its message's project and its task or conversation. */
  predicate IsAbout(m: Message, a: Activity) {
    m.env.project == a.project && ((a.task != [] && m.env.task == a.task) || (a.conversation != [] && m.env.conversation == a.conversation))
  }

  /** It concerns the message it names if that is stored, else the first that it speaks about. */
  lemma {:induction false} FindsFirstNamed(w: Work, ids: seq<Id>, a: Activity)
    requires forall i :: 0 <= i < |ids| ==> ids[i] in w.byId
    ensures match FirstNamed(w, ids, a)
            case None => forall i :: 0 <= i < |ids| ==> !IsAbout(w.byId[ids[i]], a)
            case Some(id) => exists i :: 0 <= i < |ids| && ids[i] == id && IsAbout(w.byId[id], a)
                                         && forall j :: 0 <= j < i ==> !IsAbout(w.byId[ids[j]], a)
  {
    if ids != [] {
      assert ActivityNames(w.byId[ids[0]], a) <==> IsAbout(w.byId[ids[0]], a);
      hide ActivityNames, IsAbout;
      if !IsAbout(w.byId[ids[0]], a) {
        var rest := ids[1..];
        assert ids == [ids[0]] + rest;
        FindsFirstNamed(w, rest, a);
        var found := FirstNamed(w, rest, a);
        if found.Some? {
          var i :| 0 <= i < |rest| && rest[i] == found.value && forall j :: 0 <= j < i ==> !IsAbout(w.byId[rest[j]], a);
          assert ids[i + 1] == found.value;
        }
      }
    }
  }

  lemma ActivityFinds(s: State, a: Activity)
    requires Inv(s)
    ensures match ActivityTarget(s.work, a)
            case None => (a.message == [] || a.message !in s.work.byId) && forall id :: id in s.work.byId ==> !IsAbout(s.work.byId[id], a)
            case Some(id) => if a.message != [] && a.message in s.work.byId then id == a.message
                             else id in s.work.byId && IsAbout(s.work.byId[id], a)
  {
    hide IsAbout, FirstNamed, BoardOK, TalksOK, WaitsOK, RegistryOK, OneBusyPerWorker, OneSessionPerAgent;
    FindsFirstNamed(s.work, s.work.order, a);
  }

  /** Activity changes a message only if the one it concerns is still busy, and then marks that one as running. */
  lemma ActivityAnswers(s: State, a: Activity, now: int)
    ensures var e := RecordActivity(s, a, now);
            var target := ActivityTarget(s.work, a);
            if a.sessionLease != [] && !SessionIsCurrent(s.registry, a.agent, a.project, a.sessionLease) then e == Effect(s, Raised(LeaseConflict))
            else
              && e.outcome.Accepted?
              && (if target.Some? && target.value in s.work.byId && !HasEnded(s.work.byId[target.value].status)
                  then OnlySets(s.work, e.state.work, target.value, MessageStatus.Running)
                  else e.state.work == s.work && e.state.board.jobs == s.board.jobs && (a.task == [] ==> e.state.board == s.board))
  {
    var target := ActivityTarget(s.work, a);
    if target.Some? && target.value in s.work.byId {
      BusyHasNotEnded(s.work.byId[target.value].status);
    }
    hide ActivityTarget, HasEnded, IsBusy, UpsertTask, Key;
  }

  /** Activity on a task shows it as running while it is not finished, whether or not it finds its message. */
  lemma ActivityShowsRunning(s: State, a: Activity, now: int)
    requires Inv(s) && RecordActivity(s, a, now).outcome.Accepted? && a.task != [] && Key(a.project, a.task) in s.board.tasks
    ensures var key := Key(a.project, a.task);
            var before, n := s.board.tasks[key].status, RecordActivity(s, a, now).state.board.tasks;
            && key in n
            && (before.Queued? || before.Delivered? || before.Running? ==> n[key].status.Running?)
            && (IsTerminal(before) ==> n[key].status == before)
  {
    hide Key, HoldsLease, ActivityTarget, UpsertTask, Inv;
    var target := ActivityTarget(s.work, a);
    if target.Some? && target.value in s.work.byId {
      RunningShows(s, s.work.byId[target.value].env, now, Key(a.project, a.task));
    }
  }

  /** Asking for a running job leaves the projections of other jobs, and shows its own as running or finished as it was. */
  lemma RunningShows(s: State, env: Envelope, now: int, key: Id)
    requires Inv(s) && key in s.board.tasks
    ensures var n := UpsertTask(s.board, env, MessageStatus.Running, now);
            && key in n.tasks
            && (n.tasks[key].status == s.board.tasks[key].status || (n.tasks[key].status.Running? && !IsTerminal(s.board.tasks[key].status)))
  {
    hide Key, Transition, FreshLease, WorkOK, TalksOK, WaitsOK, RegistryOK, OneBusyPerWorker, OneSessionPerAgent, JobShape;
    if JobFor(s.board, env).Some? {
      JobRuns(JobFor(s.board, env).value, MessageStatus.Running);
    }
  }
}

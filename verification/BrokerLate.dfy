/** What can still change once a message has ended or a conversation has closed. */
module BrokerLate {
  import opened Basics
  import opened Jobs
  import opened BrokerState
  import opened BrokerOps
  import opened BrokerInvariants
  import opened BrokerSteps
  import opened BrokerActs
  import opened BrokerWakes

  // ---------------------------------------------------------------------
  // Ended messages
  // ---------------------------------------------------------------------

  /** The operation gives an ended message another status, or puts a new message in its place. */
  predicate Overwrites(cfg: Config, s: State, op: Op, now: int, id: Id)
    requires id in s.work.byId
  {
    var m := s.work.byId[id];
    match op
    case DoEnqueue(env, _) => env.id == id && Refusal(cfg, s, env).None? && Message(env, FirstStatus(env), now) != m
    case DoSaveReply(message, env, claim, lease) =>
      message == id && SaveReply(s, message, env, claim, lease, now).outcome.Accepted? && ReplyStatus(env) != m.status
    case DoTimeoutReply(correlation) => FirstCorrelated(s.work, s.work.order, correlation) == Some(id) && !m.status.Timeout?
    case _ => false
  }

  /** A message that ended stays as it is, save for a second reply, a reply timeout, or a new message under its id. */
  lemma EndedMessageChangesIff(cfg: Config, s: State, op: Op, now: int, id: Id)
    requires Inv(s) && id in s.work.byId && !IsBusy(s.work.byId[id].status)
    ensures var n := Apply(cfg, s, op, now).state.work;
            var swept := Swept(cfg, s, op, now);
            && id in n.byId && id in swept.work.byId && swept.work.byId[id] == s.work.byId[id]
            && (n.byId[id] != s.work.byId[id] <==> Overwrites(cfg, swept, op, now, id))
  {
    hide Inv, Act, Sweep, Settling, Covered, IsSwept, Overwrites, Wakes, EndedResults;
    var swept := Swept(cfg, s, op, now);
    if Sweeps(op) {
      SweepIsComplete(cfg, s, now);
      SweepWakes(cfg, s, now);
    }
    if EndsWork(op) {
      WorkEndingWakes(cfg, swept, op, now);
      EndingOverwritesNothing(cfg, swept, op, now, id);
    } else {
      ActOverwrites(cfg, swept, op, now, id);
    }
  }

  lemma EndingOverwritesNothing(cfg: Config, s: State, op: Op, now: int, id: Id)
    requires EndsWork(op) && id in s.work.byId
    ensures !Overwrites(cfg, s, op, now, id)
  {
  }

  lemma ActOverwrites(cfg: Config, s: State, op: Op, now: int, id: Id)
    requires !EndsWork(op) && id in s.work.byId && !IsBusy(s.work.byId[id].status)
    ensures var n := Act(cfg, s, op, now).state.work;
            id in n.byId && (n.byId[id] != s.work.byId[id] <==> Overwrites(cfg, s, op, now, id))
  {
    hide UpsertTask, UpsertFails, Touch, PollRefused, HoldsLease, RunProjection, FindConversation, FindJob, ReplyIsStale, SettleWaits, ReplyFuture;
    hide Key, TalkEnvelope, Renew, Reclaim, Conflicts, Refusal, FirstCorrelated, Complete, Remove, PrepareTaskWait, IsBusy;
    if op.DoPrepareTaskWait? {
      WaitPreparationKeepsWork(s, op.task, op.scope);
    }
  }

  lemma WaitPreparationKeepsWork(s: State, task: Id, scope: Option<Id>)
    ensures PrepareTaskWait(s, task, scope).state.work == s.work
  {
    hide IsOnlyResult, Key;
  }

  // ---------------------------------------------------------------------
  // Closed conversations
  // ---------------------------------------------------------------------

  /** The operation opens a conversation again: a late reply, or a status update for a message still busy. */
  predicate Reopens(s: State, op: Op, now: int, key: Id) {
    match op
    case DoSaveReply(message, env, claim, lease) =>
      SaveReply(s, message, env, claim, lease, now).outcome.Accepted? && Opens(env, Some(TalkStatusOf(ReplyStatus(env))), key)
    case DoUpdateStatus(message, status, lease) =>
      && message in s.work.byId && IsBusy(s.work.byId[message].status)
      && (lease != [] ==> HoldsLease(s.registry, s.work.byId[message].env.target, Some(s.work.byId[message].env.project), lease))
      && Opens(s.work.byId[message].env, Some(TalkStatusOf(status)), key)
    case _ => false
  }

  /** A conversation that is not open stays so, save for exactly those calls. */
  lemma ClosedConversationReopensIff(cfg: Config, s: State, op: Op, now: int, key: Id)
    requires Inv(s) && key in s.talks.conversations && !s.talks.conversations[key].status.Open?
    ensures var n := Apply(cfg, s, op, now).state.talks;
            key in n.conversations && (n.conversations[key].status.Open? <==> Reopens(Swept(cfg, s, op, now), op, now, key))
  {
    hide Inv, Act, Sweep, Settling, Covered, IsSwept, Reopens, Wakes, EndedResults, EndedStay;
    var swept := Swept(cfg, s, op, now);
    if Sweeps(op) {
      SweepIsComplete(cfg, s, now);
      SweepWakes(cfg, s, now);
    }
    if EndsWork(op) {
      WorkEndingWakes(cfg, swept, op, now);
      assert !Reopens(swept, op, now, key) by { EndingReopensNothing(swept, op, now, key); }
    } else {
      TalksAreOK(swept);
      if TouchesTalks(op) {
        TalkingReopensIff(cfg, swept, op, now, key);
      } else {
        OthersKeepTalks(cfg, swept, op, now);
        assert !Reopens(swept, op, now, key) by { EndingReopensNothing(swept, op, now, key); }
      }
    }
  }

  predicate TouchesTalks(op: Op) {
    op.DoEnqueue? || op.DoDeliver? || op.DoSaveReply? || op.DoUpdateStatus? || op.DoCloseConversation? || op.DoTimeoutReply?
  }

  lemma EndingReopensNothing(s: State, op: Op, now: int, key: Id)
    requires !op.DoSaveReply? && !op.DoUpdateStatus?
    ensures !Reopens(s, op, now, key)
  {
  }

  lemma OthersKeepTalks(cfg: Config, s: State, op: Op, now: int)
    requires !EndsWork(op) && !TouchesTalks(op)
    ensures Act(cfg, s, op, now).state.talks == s.talks
  {
    hide UpsertTask, HoldsLease, ActivityTarget, RunProjection, FindJob, Key, Renew, Reclaim, Conflicts, IsOnlyResult, Complete, Remove;
  }

  lemma TalkingReopensIff(cfg: Config, s: State, op: Op, now: int, key: Id)
    requires TouchesTalks(op) && TalksOK(s.talks) && key in s.talks.conversations && !s.talks.conversations[key].status.Open?
    ensures var n := Act(cfg, s, op, now).state.talks;
            key in n.conversations && (n.conversations[key].status.Open? <==> Reopens(s, op, now, key))
  {
    hide UpsertTask, UpsertFails, Touch, PollRefused, HoldsLease, FindConversation, ReplyIsStale, SettleWaits, ReplyFuture, Refusal, FirstCorrelated;
    hide TalksOK, TalkEnvelope, IsBusy, Key, Min;
    forall env, status
      ensures var n := Touch(s.talks, env, status); key in n.conversations && (n.conversations[key].status.Open? <==> Opens(env, status, key))
    {
      TouchReopensIff(s.talks, env, status, key);
    }
  }
}

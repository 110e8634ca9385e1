/** Every call wakes exactly the callers waiting for the results it stores, and only with those. */
module BrokerWakes {
  import opened Basics
  import opened Jobs
  import opened BrokerState
  import opened BrokerOps
  import opened BrokerInvariants
  import opened BrokerSteps
  import opened BrokerActs
  import opened BrokerOutcomes
  import opened BrokerAnswers

  function KeyOf(r: TaskResult): Id {
    Key(r.project, r.task)
  }

  /** A task wait, scoped or bare, waits for this result. */
  predicate Awaits(wait: FutureKind, r: TaskResult) {
    wait.TaskWait? && (wait.key == KeyOf(r) || wait.key == r.task)
  }

  /** A busy message of a task ended, and this is the result it leaves. */
  predicate EndsAs(w: Work, n: Work, id: Id, r: TaskResult) {
    && id in w.byId && id in n.byId && IsBusy(w.byId[id].status) && !IsBusy(n.byId[id].status)
    && w.byId[id].env.task != []
    && r == TaskResult(n.byId[id].status, w.byId[id].env.project, w.byId[id].env.task)
  }

  ghost predicate IsLeft(w: Work, n: Work, r: TaskResult) {
    exists id :: EndsAs(w, n, id, r)
  }

  /** The results of the tasks whose messages ended. */
  ghost function EndedResults(w: Work, n: Work): iset<TaskResult> {
    iset r | IsLeft(w, n, r)
  }

  predicate IsStored(f: Future, stored: iset<TaskResult>) {
    f.state.GotResult? && f.state.result in stored
  }

  /** A pending wait ends exactly if it awaits a stored result, with a stored result; or its caller abandons it. */
  ghost predicate EndsRightly(before: Future, after: Future, stored: iset<TaskResult>, abandoned: bool) {
    && (after.state.Pending? || IsStored(after, stored) || (abandoned && after.state.Abandoned?))
    && (forall r :: r in stored && Awaits(before.kind, r) ==> !after.state.Pending?)
    && (abandoned ==> !after.state.Pending?)
  }

  ghost predicate WaitsEnd(w: Waits, n: Waits, stored: iset<TaskResult>, abandoned: set<nat>)
    requires |w.futures| <= |n.futures|
  {
    forall f: nat :: IsPendingTaskWait(w, f) ==> EndsRightly(w.futures[f], n.futures[f], stored, f in abandoned)
  }

  /** The kept results change for exactly the tasks a result was stored of, and to one of these. */
  ghost predicate ResultsChange(x: map<Id, TaskResult>, y: map<Id, TaskResult>, stored: iset<TaskResult>) {
    && (forall k :: k in x ==> k in y)
    && (forall k :: k in y ==> (k in x && y[k] == x[k]) || (y[k] in stored && KeyOf(y[k]) == k))
    && (forall r :: r in stored ==> KeyOf(r) in y && y[KeyOf(r)] in stored && KeyOf(y[KeyOf(r)]) == KeyOf(r))
  }

  /** A call stores these results and wakes exactly the callers waiting for them; callers it adds are pending. */
  ghost predicate Wakes(w: Waits, n: Waits, stored: iset<TaskResult>, abandoned: set<nat>) {
    && WaitsGrow(w, n) && WaitsEnd(w, n, stored, abandoned) && ResultsChange(w.results, n.results, stored)
    && (forall f :: |w.futures| <= f < |n.futures| ==> n.futures[f].state.Pending?)
  }

  lemma ResultsChangeTransitive(x: map<Id, TaskResult>, y: map<Id, TaskResult>, z: map<Id, TaskResult>, stored: iset<TaskResult>, more: iset<TaskResult>)
    requires ResultsChange(x, y, stored) && ResultsChange(y, z, more)
    ensures ResultsChange(x, z, stored + more)
  {
    hide KeyOf;
  }

  lemma WakesTransitive(a: Waits, b: Waits, c: Waits, stored: iset<TaskResult>, more: iset<TaskResult>, abandoned: set<nat>)
    requires Wakes(a, b, stored, {}) && Wakes(b, c, more, abandoned) && |b.futures| == |a.futures|
    ensures Wakes(a, c, stored + more, abandoned)
  {
    ResultsChangeTransitive(a.results, b.results, c.results, stored, more);
    hide ResultsChange, EndsRightly;
    forall f: nat | IsPendingTaskWait(a, f)
      ensures EndsRightly(a.futures[f], c.futures[f], stored + more, f in abandoned)
    {
      EndsRightlyTransitive(a.futures[f], b.futures[f], c.futures[f], stored, more, f in abandoned);
      assert b.futures[f].state.Pending? ==> IsPendingTaskWait(b, f);
    }
  }

  lemma EndsRightlyTransitive(x: Future, y: Future, z: Future, stored: iset<TaskResult>, more: iset<TaskResult>, abandoned: bool)
    requires EndsRightly(x, y, stored, false) && x.kind == y.kind
    ensures (if y.state.Pending? then EndsRightly(y, z, more, abandoned) else z == y) ==> EndsRightly(x, z, stored + more, abandoned)
  {
  }

  lemma NothingWakes(w: Waits)
    ensures Wakes(w, w, iset{}, {})
  {
  }

  // ---------------------------------------------------------------------
  // Ending work
  // ---------------------------------------------------------------------

  /** Ended messages stay as they are. */
  ghost predicate EndedStay(w: Work, n: Work) {
    && LessBusy(w, n)
    && forall id :: id in w.byId && !IsBusy(w.byId[id].status) ==> n.byId[id] == w.byId[id]
  }

  lemma EndedAdds(a: Work, b: Work, c: Work)
    requires LessBusy(a, b) && EndedStay(b, c)
    ensures EndedResults(a, c) == EndedResults(a, b) + EndedResults(b, c)
  {
    forall r
      ensures r in EndedResults(a, c) <==> r in EndedResults(a, b) || r in EndedResults(b, c)
    {
      forall id
        ensures EndsAs(a, c, id, r) <==> EndsAs(a, b, id, r) || EndsAs(b, c, id, r)
      {
      }
    }
  }

  /** Conversations that are not open stay so. */
  ghost predicate NoneReopens(t: Talks, n: Talks) {
    forall k :: k in t.conversations && !t.conversations[k].status.Open? ==> k in n.conversations && !n.conversations[k].status.Open?
  }

  /** A talk message that opens its conversation whatever became of it: neither a close nor a reply at the last turn. */
  predicate Opens(env: Envelope, status: Option<ConversationStatus>, key: Id) {
    && env.conversation != [] && IsTalk(env.kind) && Key(env.project, env.conversation) == key
    && status == Some(Open) && !env.kind.ChatClose? && !(env.kind.ChatReply? && env.turn >= env.maxTurns)
  }

  lemma TouchReopensIff(t: Talks, env: Envelope, status: Option<ConversationStatus>, key: Id)
    requires TalksOK(t) && key in t.conversations && !t.conversations[key].status.Open?
    ensures var n := Touch(t, env, status); key in n.conversations && (n.conversations[key].status.Open? <==> Opens(env, status, key))
  {
    TouchKeeps(t, env, status);
    hide TalksOK, TransitionTalkJob, TalkJobFor, Key;
  }

  lemma TouchReopensNone(t: Talks, env: Envelope, status: Option<ConversationStatus>)
    requires TalksOK(t) && status != Some(Open)
    ensures NoneReopens(t, Touch(t, env, status))
  {
    hide Touch, TalksOK;
    forall k | k in t.conversations && !t.conversations[k].status.Open?
      ensures k in Touch(t, env, status).conversations && !Touch(t, env, status).conversations[k].status.Open?
    {
      TouchReopensIff(t, env, status, k);
    }
  }

  /** A busy message was cancelled or timed out; `ending` tells which. */
  predicate WasEnded(w: Work, n: Work, id: Id, cancelled: bool) {
    && id in w.byId && id in n.byId && IsBusy(w.byId[id].status)
    && (if cancelled then n.byId[id].status.Cancelled? else n.byId[id].status.Timeout?)
  }

  /** The message ended its task's job the way it ended itself. */
  predicate EndsJobAs(w: Work, n: Work, id: Id, key: Id, job: JobStatus) {
    && (job.Cancelled? || job.Timeout?) && WasEnded(w, n, id, job.Cancelled?)
    && w.byId[id].env.task != [] && Key(w.byId[id].env.project, w.byId[id].env.task) == key
  }

  /** And its conversation: the way it ended itself, or closed if the message was the last of it anyway. */
  predicate EndsTalkAs(w: Work, n: Work, id: Id, cancelled: bool, key: Id, talk: ConversationStatus) {
    && WasEnded(w, n, id, cancelled) && IsTalkMessage(w.byId[id].env)
    && Key(w.byId[id].env.project, w.byId[id].env.conversation) == key
    && talk == TalkEnding(w.byId[id].env, Some(if cancelled then ConversationStatus.Cancelled else ConversationStatus.Timeout), Open)
  }

  /** Who waited for the message's reply was told how it ended. */
  predicate TellsHow(w: Work, n: Work, id: Id, cancelled: bool, before: Future, after: Future) {
    && WasEnded(w, n, id, cancelled) && before.kind == ReplyWait(w.byId[id].env.correlation)
    && after.state == GotBlocker(if cancelled then MessageStatus.Cancelled else MessageStatus.Timeout)
  }

  ghost predicate IsToldBy(w: Work, n: Work, before: Future, after: Future) {
    exists id, cancelled :: TellsHow(w, n, id, cancelled, before, after)
  }

  /** Reply waits end only so. */
  ghost predicate RepliesFollow(s: State, n: State) {
    forall f :: 0 <= f < |s.waits.futures| && f < |n.waits.futures| && s.waits.futures[f].kind.ReplyWait? && s.waits.futures[f].state.Pending?
                && !n.waits.futures[f].state.Pending? ==>
      IsToldBy(s.work, n.work, s.waits.futures[f], n.waits.futures[f])
  }

  lemma ToldStays(a: Work, b: Work, c: Work, x: Future, y: Future, z: Future)
    requires LessBusy(a, b) && EndedStay(b, c) && x.kind == y.kind
    ensures IsToldBy(a, b, x, y) && z == y ==> IsToldBy(a, c, x, z)
    ensures IsToldBy(b, c, y, z) ==> IsToldBy(a, c, x, z)
  {
    forall id, cancelled | TellsHow(a, b, id, cancelled, x, y) && z == y
      ensures TellsHow(a, c, id, cancelled, x, z)
    {
    }
    forall id, cancelled | TellsHow(b, c, id, cancelled, y, z)
      ensures TellsHow(a, c, id, cancelled, x, z)
    {
    }
  }

  lemma RepliesFollowTransitive(a: State, b: State, c: State)
    requires LessBusy(a.work, b.work) && EndedStay(b.work, c.work) && RepliesFollow(a, b) && RepliesFollow(b, c)
    requires WaitsGrow(a.waits, b.waits) && WaitsGrow(b.waits, c.waits)
    ensures RepliesFollow(a, c)
  {
    hide IsToldBy, LessBusy, EndedStay;
    forall f | 0 <= f < |a.waits.futures| && a.waits.futures[f].kind.ReplyWait? && a.waits.futures[f].state.Pending? && !c.waits.futures[f].state.Pending?
      ensures IsToldBy(a.work, c.work, a.waits.futures[f], c.waits.futures[f])
    {
      ToldStays(a.work, b.work, c.work, a.waits.futures[f], b.waits.futures[f], c.waits.futures[f]);
    }
  }

  lemma SettleTells(s: State, id: Id, status: MessageStatus, now: int)
    requires Inv(s) && id in s.work.byId && IsBusy(s.work.byId[id].status) && (status.Cancelled? || status.Timeout?)
    ensures RepliesFollow(s, Settle(s, id, status, now))
  {
    hide Inv, UpsertTask, Touch, Key, WaitsOK, StoreResult, RepliesFollow, IsToldBy;
    WaitsAreOK(s);
    var env := s.work.byId[id].env;
    var n := Settle(s, id, status, now);
    var r := TaskResult(status, env.project, env.task);
    if env.task != [] {
      StoreResultKeeps(s.waits, r);
    }
    var stored := if env.task == [] then s.waits else StoreResult(s.waits, r);
    TypedReplies(s.waits);
    WaitsAreTyped(stored);
    assert n.waits == ResolveReply(stored, env.correlation, GotBlocker(status));
    forall f | 0 <= f < |s.waits.futures| && s.waits.futures[f].kind.ReplyWait? && s.waits.futures[f].state.Pending? && !n.waits.futures[f].state.Pending?
      ensures IsToldBy(s.work, n.work, s.waits.futures[f], n.waits.futures[f])
    {
      assert TellsHow(s.work, n.work, id, status.Cancelled?, s.waits.futures[f], n.waits.futures[f]) by { hide StoreResult; }
      ToldBy(s.work, n.work, id, status.Cancelled?, s.waits.futures[f], n.waits.futures[f]);
    }
    hide WaitsEnd, ResultsChange;
    SettleWaitsWakes(s.waits, env, status, GotBlocker(status));
    FollowsOneByOne(s, n);
  }

  lemma FollowsOneByOne(s: State, n: State)
    requires |n.waits.futures| == |s.waits.futures|
    requires forall f :: 0 <= f < |s.waits.futures| && s.waits.futures[f].kind.ReplyWait? && s.waits.futures[f].state.Pending?
                         && !n.waits.futures[f].state.Pending? ==>
               IsToldBy(s.work, n.work, s.waits.futures[f], n.waits.futures[f])
    ensures RepliesFollow(s, n)
  {
    hide IsToldBy;
  }

  lemma ToldBy(w: Work, n: Work, id: Id, cancelled: bool, before: Future, after: Future)
    requires TellsHow(w, n, id, cancelled, before, after)
    ensures IsToldBy(w, n, before, after)
  {
  }

  lemma TypedReplies(w: Waits)
    requires WaitsOK(w)
    ensures forall c :: c in w.replies ==> w.replies[c] < |w.futures| && w.futures[w.replies[c]].kind == ReplyWait(c)
  {
  }

  /** No reply wait is completed by a result. */
  lemma WaitsAreTyped(w: Waits)
    requires WaitsOK(w)
    ensures forall f :: 0 <= f < |w.futures| && w.futures[f].kind.ReplyWait? ==> !w.futures[f].state.GotResult?
  {
    hide PendingAreListed, ListsAreTyped;
    forall f | 0 <= f < |w.futures| && w.futures[f].kind.ReplyWait?
      ensures !w.futures[f].state.GotResult?
    {
      assert IsAnswered(w.futures[f]);
    }
  }

  ghost predicate JobIsEndedBy(w: Work, n: Work, key: Id, job: JobStatus) {
    exists id :: EndsJobAs(w, n, id, key, job)
  }

  ghost predicate TalkIsEndedBy(w: Work, n: Work, key: Id, talk: ConversationStatus) {
    exists id, cancelled :: EndsTalkAs(w, n, id, cancelled, key, talk)
  }

  /** Jobs and conversations change only by messages that ended, and end as these did. */
  ghost predicate EndingsFollow(s: State, n: State) {
    && (forall k :: k in n.board.jobs ==>
          (k in s.board.jobs && n.board.jobs[k].status == s.board.jobs[k].status) || JobIsEndedBy(s.work, n.work, k, n.board.jobs[k].status))
    && (forall k :: k in n.talks.conversations ==>
          || (k in s.talks.conversations && n.talks.conversations[k].status == s.talks.conversations[k].status)
          || TalkIsEndedBy(s.work, n.work, k, n.talks.conversations[k].status))
  }

  /** No conversation of a talk message that ended is left open. */
  ghost predicate TalksClose(s: State, n: State) {
    forall id :: id in s.work.byId && id in n.work.byId && IsBusy(s.work.byId[id].status) && !IsBusy(n.work.byId[id].status)
                 && IsTalkMessage(s.work.byId[id].env) ==>
      IsNotOpen(n.talks, Key(s.work.byId[id].env.project, s.work.byId[id].env.conversation))
  }

  predicate IsNotOpen(t: Talks, key: Id) {
    key in t.conversations && !t.conversations[key].status.Open?
  }

  lemma EndedByStays(a: Work, b: Work, c: Work, key: Id)
    requires LessBusy(a, b) && EndedStay(b, c)
    ensures forall job :: JobIsEndedBy(a, b, key, job) || JobIsEndedBy(b, c, key, job) ==> JobIsEndedBy(a, c, key, job)
    ensures forall talk :: TalkIsEndedBy(a, b, key, talk) || TalkIsEndedBy(b, c, key, talk) ==> TalkIsEndedBy(a, c, key, talk)
  {
    forall id, job | EndsJobAs(a, b, id, key, job) || EndsJobAs(b, c, id, key, job)
      ensures EndsJobAs(a, c, id, key, job)
    {
    }
    forall id, cancelled, talk | EndsTalkAs(a, b, id, cancelled, key, talk) || EndsTalkAs(b, c, id, cancelled, key, talk)
      ensures EndsTalkAs(a, c, id, cancelled, key, talk)
    {
    }
  }

  lemma EndingsFollowTransitive(a: State, b: State, c: State)
    requires LessBusy(a.work, b.work) && EndedStay(b.work, c.work) && EndingsFollow(a, b) && EndingsFollow(b, c)
    ensures EndingsFollow(a, c)
  {
    forall k, job
      ensures JobIsEndedBy(a.work, b.work, k, job) || JobIsEndedBy(b.work, c.work, k, job) ==> JobIsEndedBy(a.work, c.work, k, job)
    {
      EndedByStays(a.work, b.work, c.work, k);
    }
    forall k, talk
      ensures TalkIsEndedBy(a.work, b.work, k, talk) || TalkIsEndedBy(b.work, c.work, k, talk) ==> TalkIsEndedBy(a.work, c.work, k, talk)
    {
      EndedByStays(a.work, b.work, c.work, k);
    }
    hide JobIsEndedBy, TalkIsEndedBy, LessBusy, EndedStay;
  }

  lemma SettleFollows(s: State, id: Id, status: MessageStatus, now: int)
    requires Inv(s) && id in s.work.byId && IsBusy(s.work.byId[id].status) && (status.Cancelled? || status.Timeout?)
    ensures EndingsFollow(s, Settle(s, id, status, now))
  {
    hide Inv, UpsertTask, SettleWaits, Key, Touch, BaseConversation, JobIsEndedBy;
    var env := s.work.byId[id].env;
    var n := Settle(s, id, status, now);
    SettledJobFollows(s, id, status, now);
    if IsTalkMessage(env) {
      TalksAreFine(s);
      TouchStores(s.talks, env, Some(TalkStatusOf(status)));
      assert EndsTalkAs(s.work, n.work, id, status.Cancelled?, Key(env.project, env.conversation), NextConversation(s.talks, env, Some(TalkStatusOf(status))).status);
    } else {
      NoTalkNoTouch(s.talks, env, Some(TalkStatusOf(status)));
    }
  }

  lemma NoTalkNoTouch(t: Talks, env: Envelope, status: Option<ConversationStatus>)
    requires !IsTalkMessage(env)
    ensures Touch(t, env, status) == t
  {
  }

  lemma SettleClosesTalk(s: State, id: Id, status: MessageStatus, now: int)
    requires Inv(s) && id in s.work.byId && (status.Cancelled? || status.Timeout?)
    ensures TalksClose(s, Settle(s, id, status, now))
  {
    hide Inv, UpsertTask, SettleWaits, Key, Touch, BaseConversation;
    if IsTalkMessage(s.work.byId[id].env) {
      TalksAreFine(s);
      TouchStores(s.talks, s.work.byId[id].env, Some(TalkStatusOf(status)));
    }
  }

  lemma JobIsShapedFor(s: State, env: Envelope)
    requires Inv(s)
    ensures JobFor(s.board, env).Some? ==> !JobFor(s.board, env).value.status.Reclaimable?
  {
    JobsAreShaped(s);
    hide Inv, Key;
  }

  lemma UpsertTouchesOne(b: Board, env: Envelope, status: MessageStatus, now: int)
    ensures var n := UpsertTask(b, env, status, now);
            forall k :: k in n.jobs && k != Key(env.project, env.task) ==> k in b.jobs && n.jobs[k] == b.jobs[k]
    ensures JobFor(b, env).None? ==> UpsertTask(b, env, status, now) == b
    ensures JobFor(b, env).Some? && Key(env.project, env.task) in b.jobs ==> JobFor(b, env).value == b.jobs[Key(env.project, env.task)]
  {
    hide Key, Transition, FreshLease;
  }

  lemma SettledJobFollows(s: State, id: Id, status: MessageStatus, now: int)
    requires Inv(s) && id in s.work.byId && IsBusy(s.work.byId[id].status) && (status.Cancelled? || status.Timeout?)
    ensures var n := Settle(s, id, status, now);
            forall k :: k in n.board.jobs ==>
              (k in s.board.jobs && n.board.jobs[k].status == s.board.jobs[k].status) || JobIsEndedBy(s.work, n.work, k, n.board.jobs[k].status)
  {
    hide Inv, Touch, SettleWaits, UpsertTask, Key, Transition;
    var env := s.work.byId[id].env;
    var key := Key(env.project, env.task);
    var n := Settle(s, id, status, now);
    UpsertTouchesOne(s.board, env, status, now);
    JobIsShapedFor(s, env);
    if JobFor(s.board, env).Some? {
      JobIsEnded(JobFor(s.board, env).value, status);
      JobIsAsked(s.board, env, status, now);
      var job := if status.Cancelled? then JobStatus.Cancelled else JobStatus.Timeout;
      assert EndsJobAs(s.work, n.work, id, key, job);
      assert JobIsEndedBy(s.work, n.work, key, job);
    }
  }

  /** From one state to the next work only ends, and its results wake who waits for them. */
  ghost predicate WakesEnded(s: State, n: State) {
    && EndedStay(s.work, n.work) && |n.waits.futures| == |s.waits.futures|
    && Wakes(s.waits, n.waits, EndedResults(s.work, n.work), {})
    && NoneReopens(s.talks, n.talks)
  }

  /** And no job or conversation changes but as the work that ended did. */
  ghost predicate WindsDown(s: State, n: State) {
    WakesEnded(s, n) && EndingsFollow(s, n) && TalksClose(s, n) && RepliesFollow(s, n)
  }

  lemma WindsDownReflexive(s: State)
    ensures WindsDown(s, s)
  {
    assert EndedResults(s.work, s.work) == iset{};
    NothingWakes(s.waits);
  }

  lemma WakesEndedTransitive(a: State, b: State, c: State)
    requires WakesEnded(a, b) && WakesEnded(b, c)
    ensures WakesEnded(a, c)
  {
    hide Wakes;
    EndedAdds(a.work, b.work, c.work);
    WakesTransitive(a.waits, b.waits, c.waits, EndedResults(a.work, b.work), EndedResults(b.work, c.work), {});
  }

  lemma WindsDownTransitive(a: State, b: State, c: State)
    requires WindsDown(a, b) && WindsDown(b, c)
    ensures WindsDown(a, c)
  {
    hide WaitsEnd, ResultsChange, EndingsFollow, TalksClose, RepliesFollow;
    RepliesFollowTransitive(a, b, c);
    hide Wakes;
    WakesEndedTransitive(a, b, c);
    EndingsFollowTransitive(a, b, c);
    TalksCloseTransitive(a, b, c);
  }

  lemma TalksCloseTransitive(a: State, b: State, c: State)
    requires TalksClose(a, b) && TalksClose(b, c) && NoneReopens(b.talks, c.talks) && LessBusy(a.work, b.work) && LessBusy(b.work, c.work)
    ensures TalksClose(a, c)
  {
    hide Key, IsTalkMessage;
  }

  /** Settling a message's callers resolves exactly the task waits that await its result. */
  lemma SettleWaitsWakes(w: Waits, env: Envelope, status: MessageStatus, reply: FutureState)
    requires WaitsOK(w) && (reply.GotReply? || reply.GotBlocker?)
    ensures var n := SettleWaits(w, env, status, reply);
            && |n.futures| == |w.futures|
            && Wakes(w, n, if env.task == [] then iset{} else iset{TaskResult(status, env.project, env.task)}, {})
  {
    hide Key, StoreResult, ResolveReply, WaitsOK, WaitsEnd, ResultsChange;
    var r := TaskResult(status, env.project, env.task);
    if env.task == [] {
      NothingWakes(w);
      ReplyWakesNoTask(w, env.correlation, reply);
    } else {
      StoringWakes(w, r);
      ReplyWakesNoTask(StoreResult(w, r), env.correlation, reply);
      WakesTransitive(w, StoreResult(w, r), SettleWaits(w, env, status, reply), iset{r}, iset{}, {});
      assert iset{r} + iset{} == iset{r};
    }
  }

  lemma StoringWakes(w: Waits, r: TaskResult)
    requires WaitsOK(w)
    ensures var n := StoreResult(w, r);
            WaitsOK(n) && |n.futures| == |w.futures| && Wakes(w, n, iset{r}, {})
  {
    StoreResultKeeps(w, r);
    assert StoreResult(w, r).results == w.results[KeyOf(r) := r];
    hide Key, WaitsOK, ResolveWaiters;
  }

  lemma ReplyWakesNoTask(w: Waits, correlation: Id, state: FutureState)
    requires WaitsOK(w) && !state.Pending?
    ensures var n := ResolveReply(w, correlation, state);
            |n.futures| == |w.futures| && Wakes(w, n, iset{}, {})
  {
    hide PendingAreListed, AnswersFit;
  }

  lemma SettleWakes(s: State, id: Id, status: MessageStatus, now: int)
    requires Inv(s) && id in s.work.byId && IsBusy(s.work.byId[id].status) && (status.Cancelled? || status.Timeout?)
    ensures WindsDown(s, Settle(s, id, status, now))
  {
    hide UpsertTask, Touch, SettleWaits, WaitsOK, BoardOK, TalksOK, WorkOK, OneBusyPerWorker, RegistryOK, OneSessionPerAgent, Wakes;
    var env := s.work.byId[id].env;
    var n := Settle(s, id, status, now);
    SettleWaitsWakes(s.waits, env, status, GotBlocker(status));
    TouchReopensNone(s.talks, env, Some(TalkStatusOf(status)));
    SettleFollows(s, id, status, now);
    SettleClosesTalk(s, id, status, now);
    SettleTells(s, id, status, now);
    hide EndingsFollow, TalksClose, RepliesFollow;
    var r := TaskResult(status, env.project, env.task);
    assert env.task != [] ==> EndsAs(s.work, n.work, id, r);
    assert EndedResults(s.work, n.work) == if env.task == [] then iset{} else iset{r};
  }

  lemma {:induction false} SettleAgentWakes(s: State, ids: seq<Id>, agent: Id, project: Id, now: int)
    requires Inv(s)
    ensures WindsDown(s, SettleAgent(s, ids, agent, project, now).state)
    decreases |ids|
  {
    hide Inv, Settle, Settling, WindsDown;
    if ids == [] {
      WindsDownReflexive(s);
    } else {
      var id, rest := ids[|ids| - 1], ids[..|ids| - 1];
      var before := SettleAgent(s, rest, agent, project, now).state;
      SettleAgentKeeps(s, rest, agent, project, now);
      SettleAgentWakes(s, rest, agent, project, now);
      if id in before.work.byId && ConcernsAgent(before.work.byId[id], agent, project) {
        SettleWakes(before, id, MessageStatus.Cancelled, now);
        WindsDownTransitive(s, before, Settle(before, id, MessageStatus.Cancelled, now));
      }
    }
  }

  lemma {:induction false} TimeoutsWake(s: State, ids: seq<Id>, now: int)
    requires Inv(s)
    ensures WindsDown(s, TimeoutMessages(s, ids, now))
    decreases |ids|
  {
    hide Inv, Settle, Settling, WindsDown;
    if ids == [] {
      WindsDownReflexive(s);
    } else {
      var id, rest := ids[|ids| - 1], ids[..|ids| - 1];
      var before := TimeoutMessages(s, rest, now);
      TimeoutMessagesKeeps(s, rest, now);
      TimeoutsWake(s, rest, now);
      if id in before.work.byId && IsOverdue(before.work.byId[id], now) {
        SettleWakes(before, id, MessageStatus.Timeout, now);
        WindsDownTransitive(s, before, Settle(before, id, MessageStatus.Timeout, now));
      }
    }
  }

  lemma EndSessionWakes(s: State, lease: Id, status: SessionStatus, now: int)
    requires Inv(s) && lease in s.registry.byLease
    ensures WindsDown(s, EndSession(s, lease, status, now))
  {
    hide SettleAgent, Inv, EndedStay, Wakes;
    var x := s.registry.byLease[lease];
    SettleAgentWakes(s, s.work.order, x.agent, x.project, now);
  }

  lemma {:induction false} ExpireSessionsWake(cfg: Config, s: State, leases: seq<Id>, now: int)
    requires Inv(s)
    ensures WindsDown(s, ExpireSessions(cfg, s, leases, now))
    decreases |leases|
  {
    hide Inv, EndSession, Settling, WindsDown, Covered;
    if leases == [] {
      WindsDownReflexive(s);
    } else {
      var lease, rest := leases[|leases| - 1], leases[..|leases| - 1];
      var before := ExpireSessions(cfg, s, rest, now);
      ExpireSessionsKeeps(cfg, s, rest, now);
      ExpireSessionsWake(cfg, s, rest, now);
      if lease in before.registry.byLease && IsStale(cfg, before.registry.byLease[lease], now) {
        EndSessionWakes(before, lease, Expired, now);
        WindsDownTransitive(s, before, EndSession(before, lease, Expired, now));
      }
    }
  }

  /** The sweep wakes exactly those who wait for the work it ends. */
  lemma SweepWakes(cfg: Config, s: State, now: int)
    requires Inv(s)
    ensures WindsDown(s, Sweep(cfg, s, now))
  {
    hide Inv, ExpireSessions, TimeoutMessages, WindsDown, Settling;
    var expired := ExpireSessions(cfg, s, s.registry.order, now);
    ExpireSessionsKeeps(cfg, s, s.registry.order, now);
    ExpireSessionsWake(cfg, s, s.registry.order, now);
    TimeoutsWake(expired, expired.work.order, now);
    WindsDownTransitive(s, expired, Sweep(cfg, s, now));
  }

  ghost predicate AreBusyAndDistinct(w: Work, ids: seq<Id>) {
    && (forall i :: 0 <= i < |ids| ==> ids[i] in w.byId && IsBusy(w.byId[ids[i]].status))
    && (forall i, j :: 0 <= i < j < |ids| ==> ids[i] != ids[j])
  }

  lemma {:induction false} TargetsAreBusy(w: Work, ids: seq<Id>, item: Id, scope: Option<Id>)
    requires forall i, j :: 0 <= i < j < |ids| ==> ids[i] != ids[j]
    ensures AreBusyAndDistinct(w, CancelTargets(w, ids, item, scope))
    decreases |ids|
  {
    if ids != [] {
      var rest, last := ids[..|ids| - 1], ids[|ids| - 1];
      var targets := CancelTargets(w, rest, item, scope);
      TargetsAreBusy(w, rest, item, scope);
      OneMoreTarget(w, ids, item, scope);
      hide CancelTargets;
      forall i | 0 <= i < |targets|
        ensures targets[i] != last
      {
        TargetsAreThoseNamed(w, rest, item, scope, targets[i]);
      }
    }
  }

  lemma OneMoreTarget(w: Work, ids: seq<Id>, item: Id, scope: Option<Id>)
    requires ids != []
    ensures var rest := CancelTargets(w, ids[..|ids| - 1], item, scope);
            CancelTargets(w, ids, item, scope) ==
            if ids[|ids| - 1] in w.byId && IsCancelTarget(w.byId[ids[|ids| - 1]], item, scope) then rest + [ids[|ids| - 1]] else rest
  {
  }

  lemma {:induction false} CancelAllWakes(s: State, ids: seq<Id>, now: int)
    requires Inv(s) && AreBusyAndDistinct(s.work, ids)
    ensures WindsDown(s, CancelAll(s, ids, now))
    decreases |ids|
  {
    hide Inv, Settle, Settling, WindsDown;
    if ids == [] {
      WindsDownReflexive(s);
    } else {
      var id, rest := ids[|ids| - 1], ids[..|ids| - 1];
      var before := CancelAll(s, rest, now);
      CancelAllKeeps(s, rest, now);
      CancelAllWakes(s, rest, now);
      CancelAllDecides(s, rest, now, id);
      SettleWakes(before, id, MessageStatus.Cancelled, now);
      WindsDownTransitive(s, before, Settle(before, id, MessageStatus.Cancelled, now));
    }
  }

  lemma WorkIsDistinct(s: State)
    requires Inv(s)
    ensures forall i, j :: 0 <= i < j < |s.work.order| ==> s.work.order[i] != s.work.order[j]
  {
  }

  lemma TalksAreOK(s: State)
    requires Inv(s)
    ensures TalksOK(s.talks)
  {
  }

  lemma CancelWakes(s: State, item: Id, scope: Option<Id>, now: int)
    requires Inv(s)
    ensures WakesEnded(s, CancelWork(s, item, scope, now).state)
  {
    hide Inv, CancelTargets, CancelAll, FindConversation, Touch, EndedStay, Wakes, AreBusyAndDistinct, NoneReopens;
    WindsDownReflexive(s);
    WorkIsDistinct(s);
    var found := FindConversation(s.talks, item, scope);
    if found.Some? {
      TalksAreOK(s);
      TouchReopensNone(s.talks, TalkEnvelope(found.value, item, ChatTurn, found.value.turn), Some(ConversationStatus.Cancelled));
    }
    TargetsAreBusy(s.work, s.work.order, item, scope);
    CancelAllWakes(s, CancelTargets(s.work, s.work.order, item, scope), now);
  }

  /** What a cancel ends has a result, a finished job and no waiting caller: whoever awaited its task, scoped or bare, has a cancelled result. */
  lemma CancelLeavesNobodyWaiting(s: State, item: Id, scope: Option<Id>, now: int, id: Id, f: nat)
    requires Inv(s) && id in s.work.byId && IsCancelTarget(s.work.byId[id], item, scope) && s.work.byId[id].env.task != []
    requires IsPendingTaskWait(s.waits, f)
    ensures var env := s.work.byId[id].env;
            var n := CancelWork(s, item, scope, now).state;
            && IsSettled(n, env) && f < |n.waits.futures|
            && (Awaits(s.waits.futures[f].kind, TaskResult(MessageStatus.Cancelled, env.project, env.task)) ==>
                  && n.waits.futures[f].state.GotResult?
                  && n.waits.futures[f].state.result.status.Cancelled?
                  && Awaits(n.waits.futures[f].kind, n.waits.futures[f].state.result))
  {
    hide CancelWork, IsCancelTarget, IsSettled, KeyOf, ResultsChange, Inv;
    var env := s.work.byId[id].env;
    var n := CancelWork(s, item, scope, now).state;
    CancelSettles(s, item, scope, now, id);
    CancelDecides(s, item, scope, now, id);
    CancelWakes(s, item, scope, now);
    TargetIsBusy(s.work.byId[id], item, scope);
    assert EndsAs(s.work, n.work, id, TaskResult(MessageStatus.Cancelled, env.project, env.task));
    if n.waits.futures[f].state.GotResult? {
      CancelWorkKeeps(s, item, scope, now);
      AnswersAreAwaited(n, f);
      var other :| EndsAs(s.work, n.work, other, n.waits.futures[f].state.result);
      CancelDecides(s, item, scope, now, other);
    }
  }

  /** Cancelling work cancels its task's job, unless that had finished, and leaves no conversation of it open. */
  lemma CancelEndsJobs(s: State, item: Id, scope: Option<Id>, now: int, id: Id)
    requires Inv(s) && id in s.work.byId && IsCancelTarget(s.work.byId[id], item, scope)
    ensures var env := s.work.byId[id].env;
            var n := CancelWork(s, item, scope, now).state;
            && (env.task != [] && Key(env.project, env.task) in s.board.jobs && !IsTerminal(s.board.jobs[Key(env.project, env.task)].status) ==>
                  Key(env.project, env.task) in n.board.jobs && n.board.jobs[Key(env.project, env.task)].status.Cancelled?)
            && (IsTalkMessage(env) ==> IsNotOpen(n.talks, Key(env.project, env.conversation)))
  {
    hide Inv, CancelWork, IsCancelTarget, Wakes, NoneReopens, TalksQuiet, WaitsGrow, WaitsSettled, Key, JobIsEndedBy, TalkIsEndedBy;
    var n := CancelWork(s, item, scope, now).state;
    CancelWindsDown(s, item, scope, now, id);
    CancelDecides(s, item, scope, now, id);
    TargetIsBusy(s.work.byId[id], item, scope);
    CancelSettles(s, item, scope, now, id);
    CancelWorkKeeps(s, item, scope, now);
    forall key, job | JobIsEndedBy(s.work, n.work, key, job)
      ensures job.Cancelled?
    {
      CancelledEndings(s, item, scope, now, key, job);
    }
  }

  /** Whoever waits for the reply to a cancelled message is told that it was cancelled. */
  lemma CancelTellsWaiting(s: State, item: Id, scope: Option<Id>, now: int, id: Id)
    requires Inv(s) && id in s.work.byId && IsCancelTarget(s.work.byId[id], item, scope)
    requires var c := s.work.byId[id].env.correlation; c in s.waits.replies && IsPending(s.waits, s.waits.replies[c])
    ensures var f := s.waits.replies[s.work.byId[id].env.correlation];
            var n := CancelWork(s, item, scope, now).state.waits;
            f < |n.futures| && n.futures[f].state == GotBlocker(MessageStatus.Cancelled)
  {
    hide Inv, CancelWork, IsCancelTarget, Wakes, NoneReopens, TalksQuiet, WaitsOK, EndingsFollow, TalksClose, Key;
    var n := CancelWork(s, item, scope, now).state;
    var f := s.waits.replies[s.work.byId[id].env.correlation];
    CancelWindsDown(s, item, scope, now, id);
    CancelSettles(s, item, scope, now, id);
    CancelWorkKeeps(s, item, scope, now);
    CancelKeepsReplies(s, item, scope, now);
    WaitsAreOK(s);
    TypedReplies(s.waits);
    assert IsToldBy(s.work, n.work, s.waits.futures[f], n.waits.futures[f]);
    var other, cancelled :| TellsHow(s.work, n.work, other, cancelled, s.waits.futures[f], n.waits.futures[f]);
    CancelDecides(s, item, scope, now, other);
  }

  lemma CancelKeepsReplies(s: State, item: Id, scope: Option<Id>, now: int)
    requires Inv(s)
    ensures CancelWork(s, item, scope, now).state.waits.replies == s.waits.replies
  {
    hide Inv, CancelTargets, CancelAll, FindConversation, Touch, Winds, EndsSettled, OnlyEndsJobs;
    CancelAllKeeps(s, CancelTargets(s.work, s.work.order, item, scope), now);
  }

  lemma CancelWindsDown(s: State, item: Id, scope: Option<Id>, now: int, id: Id)
    requires Inv(s) && id in s.work.byId && IsCancelTarget(s.work.byId[id], item, scope)
    ensures WindsDown(s, CancelWork(s, item, scope, now).state)
  {
    hide Inv, CancelTargets, CancelAll, FindConversation, Touch, IsCancelTarget, WindsDown;
    var targets := CancelTargets(s.work, s.work.order, item, scope);
    WorkIsDistinct(s);
    WorkIsListed(s, id);
    TargetsAreBusy(s.work, s.work.order, item, scope);
    TargetsAreThoseNamed(s.work, s.work.order, item, scope, id);
    CancelAllWakes(s, targets, now);
  }

  lemma CancelledEndings(s: State, item: Id, scope: Option<Id>, now: int, key: Id, job: JobStatus)
    requires Inv(s) && JobIsEndedBy(s.work, CancelWork(s, item, scope, now).state.work, key, job)
    ensures job.Cancelled?
  {
    hide Inv, CancelWork, IsCancelTarget, Key;
    var id :| EndsJobAs(s.work, CancelWork(s, item, scope, now).state.work, id, key, job);
    CancelDecides(s, item, scope, now, id);
  }

  /** What a sweep ends ends its job, unless that had finished, the way some message of the task ended, and leaves no conversation of it open. */
  lemma SweepEndsJobs(cfg: Config, s: State, now: int, id: Id)
    requires Inv(s) && id in s.work.byId
    ensures var env := s.work.byId[id].env;
            var n := Sweep(cfg, s, now);
            && id in n.work.byId
            && (!HasEnded(s.work.byId[id].status) && HasEnded(n.work.byId[id].status) ==>
                  && (env.task != [] && Key(env.project, env.task) in s.board.jobs && !IsTerminal(s.board.jobs[Key(env.project, env.task)].status) ==>
                        && Key(env.project, env.task) in n.board.jobs
                        && JobIsEndedBy(s.work, n.work, Key(env.project, env.task), n.board.jobs[Key(env.project, env.task)].status))
                  && (IsTalkMessage(env) ==> IsNotOpen(n.talks, Key(env.project, env.conversation))))
  {
    SweepIsComplete(cfg, s, now);
    SweepWakes(cfg, s, now);
    SweepDecides(cfg, s, now, id);
    hide Inv, Sweep, Wakes, NoneReopens, TalksQuiet, WaitsGrow, WaitsSettled, Key, JobIsEndedBy, TalkIsEndedBy, IsSwept, Covered, OnlyEndsJobs;
    BusyHasNotEnded(s.work.byId[id].status);
    BusyHasNotEnded(Sweep(cfg, s, now).work.byId[id].status);
    hide HasEnded, IsBusy;
  }

  lemma TargetIsBusy(m: Message, item: Id, scope: Option<Id>)
    requires IsCancelTarget(m, item, scope)
    ensures IsBusy(m.status)
  {
  }

  lemma AnswersAreAwaited(s: State, f: nat)
    requires Inv(s) && f < |s.waits.futures| && s.waits.futures[f].state.GotResult?
    ensures Awaits(s.waits.futures[f].kind, s.waits.futures[f].state.result)
  {
    hide Key, WorkOK, BoardOK, TalksOK, RegistryOK, OneBusyPerWorker, OneSessionPerAgent, PendingAreListed, ListsAreTyped;
    assert IsAnswered(s.waits.futures[f]);
  }

  // ---------------------------------------------------------------------
  // Any call
  // ---------------------------------------------------------------------

  /** Operations that end work outside their sweep without a reply. */
  predicate EndsWork(op: Op) {
    op.DoReleaseSession? || op.DoExpireSessions? || op.DoCancelWork?
  }

  /** The results a call stores: of the work its sweep ends, of the work it ends, or of the reply it accepts. */
  ghost function StoredBy(cfg: Config, s: State, op: Op, now: int): iset<TaskResult> {
    var swept := Swept(cfg, s, op, now);
    EndedResults(s.work, swept.work) + StoredAfterSweep(cfg, swept, op, now)
  }

  ghost function StoredAfterSweep(cfg: Config, s: State, op: Op, now: int): iset<TaskResult> {
    var e := Act(cfg, s, op, now);
    if EndsWork(op) then EndedResults(s.work, e.state.work)
    else if op.DoSaveReply? && e.outcome.Accepted? && op.env.task != [] then iset{TaskResult(ReplyStatus(op.env), op.env.project, op.env.task)}
    else iset{}
  }

  function AbandonedBy(op: Op): set<nat> {
    if op.DoAbandonWait? then {op.future} else {}
  }

  lemma SameWaitsWake(w: Waits, n: Waits)
    requires n.results == w.results && |w.futures| <= |n.futures|
    requires forall f :: 0 <= f < |w.futures| ==> n.futures[f] == w.futures[f]
    requires forall f :: |w.futures| <= f < |n.futures| ==> n.futures[f].state.Pending?
    ensures Wakes(w, n, iset{}, {})
  {
  }

  lemma AbandonWakes(w: Waits, f: nat)
    ensures Wakes(w, w.(futures := Complete(w.futures, f, Abandoned)), iset{}, {f})
  {
  }

  lemma ReplyWakes(s: State, messageId: Id, reply: Envelope, a: Assertion, sessionLease: Id, now: int)
    requires Inv(s)
    ensures var e := SaveReply(s, messageId, reply, a, sessionLease, now);
            Wakes(s.waits, e.state.waits,
                  if e.outcome.Accepted? && reply.task != [] then iset{TaskResult(ReplyStatus(reply), reply.project, reply.task)} else iset{}, {})
  {
    hide UpsertTask, Touch, SettleWaits, WaitsOK, BoardOK, TalksOK, WorkOK, OneBusyPerWorker, RegistryOK, OneSessionPerAgent, Wakes, HoldsLease, ReplyIsStale;
    NothingWakes(s.waits);
    SettleWaitsWakes(s.waits, reply, ReplyStatus(reply), GotReply(reply.id));
  }

  lemma WorkEndingWakes(cfg: Config, s: State, op: Op, now: int)
    requires Inv(s) && EndsWork(op)
    ensures WakesEnded(s, Act(cfg, s, op, now).state)
  {
    hide Inv, CancelWork, EndSession, ExpireSessions, StaleLeases, SettleAgent, WakesEnded, EndingsFollow;
    WindsDownReflexive(s);
    match op {
      case DoReleaseSession(lease, scope) =>
        if SessionFor(s, lease, scope).Some? {
          EndSessionWakes(s, lease, Released, now);
        }
      case DoExpireSessions => ExpireSessionsWake(cfg, s, s.registry.order, now);
      case DoCancelWork(item, scope) => CancelWakes(s, item, scope, now);
    }
  }

  lemma QueueingWakesNobody(cfg: Config, s: State, env: Envelope, createWaiter: bool, now: int)
    ensures Wakes(s.waits, Enqueue(cfg, s, env, createWaiter, now).state.waits, iset{}, {})
  {
    hide Wakes, UpsertTask, UpsertFails, Touch, Refusal;
    NothingWakes(s.waits);
    SameWaitsWake(s.waits, ReplyFuture(s.waits, env.correlation));
  }

  lemma WaitingWakesNobody(s: State, task: Id, scope: Option<Id>)
    ensures Wakes(s.waits, PrepareTaskWait(s, task, scope).state.waits, iset{}, {})
  {
    hide Wakes, IsOnlyResult, Key;
    SameWaitsWake(s.waits, PrepareTaskWait(s, task, scope).state.waits);
  }

  /** Operations on the waits themselves. */
  predicate IsWaiting(op: Op) {
    op.DoPrepareTaskWait? || op.DoCleanupTaskWaiter? || op.DoPrepareReplyWait? || op.DoAbandonWait? || op.DoCleanupReplyWaiter?
  }

  lemma OthersKeepWaits(cfg: Config, s: State, op: Op, now: int)
    requires !EndsWork(op) && !op.DoSaveReply? && !op.DoEnqueue? && !IsWaiting(op)
    ensures Act(cfg, s, op, now).state.waits == s.waits
  {
    hide UpsertTask, UpsertFails, Touch, PollRefused, HoldsLease, ActivityTarget, RunProjection, FindConversation, FindJob;
    hide FirstCorrelated, Key, TalkEnvelope, Renew, Reclaim, Conflicts;
  }

  lemma WaitingOpsWakeNobody(cfg: Config, s: State, op: Op, now: int)
    requires IsWaiting(op)
    ensures Wakes(s.waits, Act(cfg, s, op, now).state.waits, iset{}, AbandonedBy(op))
  {
    hide Wakes, PrepareTaskWait, PrepareReplyWait, CleanupTaskWaiter, CleanupReplyWaiter, Complete;
    NothingWakes(s.waits);
    match op {
      case DoAbandonWait(f) => AbandonWakes(s.waits, f);
      case DoPrepareTaskWait(task, scope) => WaitingWakesNobody(s, task, scope);
      case DoPrepareReplyWait(correlation) => ReplyWaitWakesNobody(s, correlation);
      case DoCleanupTaskWaiter(key, f) => CleaningWakesNobody(s, key, f);
      case DoCleanupReplyWaiter(correlation, f) => CleaningWakesNobody(s, correlation, f);
    }
  }

  lemma ReplyWaitWakesNobody(s: State, correlation: Id)
    ensures Wakes(s.waits, PrepareReplyWait(s, correlation).state.waits, iset{}, {})
  {
    hide Wakes;
    SameWaitsWake(s.waits, ReplyFuture(s.waits, correlation));
  }

  lemma CleaningWakesNobody(s: State, key: Id, f: nat)
    ensures Wakes(s.waits, CleanupTaskWaiter(s, key, f).state.waits, iset{}, {})
    ensures Wakes(s.waits, CleanupReplyWaiter(s, key, f).state.waits, iset{}, {})
  {
    hide Wakes, Remove;
    SameWaitsWake(s.waits, CleanupTaskWaiter(s, key, f).state.waits);
    SameWaitsWake(s.waits, CleanupReplyWaiter(s, key, f).state.waits);
  }

  /** Every other operation completes no wait, but for the one it abandons, and keeps the results. */
  lemma OthersWakeNobody(cfg: Config, s: State, op: Op, now: int)
    requires !EndsWork(op) && !op.DoSaveReply?
    ensures Wakes(s.waits, Act(cfg, s, op, now).state.waits, iset{}, AbandonedBy(op))
  {
    hide Wakes, Enqueue;
    if op.DoEnqueue? {
      QueueingWakesNobody(cfg, s, op.env, op.createWaiter, now);
    } else if IsWaiting(op) {
      hide Act;
      WaitingOpsWakeNobody(cfg, s, op, now);
    } else {
      hide Act;
      OthersKeepWaits(cfg, s, op, now);
      NothingWakes(s.waits);
    }
  }

  lemma ActWakes(cfg: Config, s: State, op: Op, now: int)
    requires Inv(s)
    ensures Wakes(s.waits, Act(cfg, s, op, now).state.waits, StoredAfterSweep(cfg, s, op, now), AbandonedBy(op))
  {
    hide Inv, Wakes, EndedStay, EndedResults;
    if EndsWork(op) {
      hide Act;
      WorkEndingWakes(cfg, s, op, now);
    } else if op.DoSaveReply? {
      hide SaveReply;
      ReplyWakes(s, op.message, op.env, op.claim, op.lease, now);
    } else {
      hide Act;
      OthersWakeNobody(cfg, s, op, now);
    }
  }

  /**
   * No lost wakeup. A call wakes every caller, scoped or bare, that waits for a result it stores; the
   * callers it wakes get such a result; and no other wait ends, but for the one the call abandons.
   */
  lemma ApplyWakes(cfg: Config, s: State, op: Op, now: int)
    requires Inv(s)
    ensures Wakes(s.waits, Apply(cfg, s, op, now).state.waits, StoredBy(cfg, s, op, now), AbandonedBy(op))
  {
    hide Inv, Act, Sweep, Wakes, EndedStay, EndedResults, Settling, StoredAfterSweep, Covered, IsSwept, EndingsFollow;
    var swept := Swept(cfg, s, op, now);
    if Sweeps(op) {
      SweepIsComplete(cfg, s, now);
      SweepWakes(cfg, s, now);
    } else {
      WindsDownReflexive(s);
    }
    ActWakes(cfg, swept, op, now);
    WakesTransitive(s.waits, swept.waits, Apply(cfg, s, op, now).state.waits, EndedResults(s.work, swept.work), StoredAfterSweep(cfg, swept, op, now), AbandonedBy(op));
  }
}

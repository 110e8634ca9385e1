/** What the checkpoint says of work that ended: it is no longer in flight. */
module ServiceRecords {
  import opened Basics
  import opened Jobs
  import opened BrokerState
  import opened BrokerOps
  import opened BrokerInvariants
  import opened BrokerSteps
  import opened BrokerActs
  import opened BrokerAnswers
  import opened BrokerClock
  import opened Checkpoint
  import opened Service
  import opened ServiceAgreement

  // ---------------------------------------------------------------------
  // Holders
  // ---------------------------------------------------------------------

  /** Stripping cuts all blanks off both ends and nothing else. */
  lemma {:induction false} StripTrims(s: Id) returns (i: nat, j: nat)
    ensures i <= j <= |s| && Strip(s) == s[i..j]
    ensures forall k :: 0 <= k < i || j <= k < |s| ==> IsSpace(s[k])
    ensures Strip(s) != [] ==> !IsSpace(Strip(s)[0]) && !IsSpace(Strip(s)[|Strip(s)| - 1])
    decreases |s|
  {
    if s != [] && IsSpace(s[0]) {
      i, j := StripTrims(s[1..]);
      assert s[1..][i..j] == s[i + 1..j + 1];
      assert forall k :: 0 < k < |s| ==> s[k] == s[1..][k - 1];
      i, j := i + 1, j + 1;
    } else if s != [] && IsSpace(s[|s| - 1]) {
      i, j := StripTrims(s[..|s| - 1]);
      assert s[..|s| - 1][i..j] == s[i..j];
      assert forall k :: 0 <= k < |s| - 1 ==> s[k] == s[..|s| - 1][k];
    } else {
      i, j := 0, |s|;
    }
  }

  // ---------------------------------------------------------------------
  // Settlements
  // ---------------------------------------------------------------------

  predicate IsInFlight(file: seq<Entry>, task: Id) {
    Find(file, task).Some? && Find(file, task).value.status.InFlight?
  }

  lemma OneInFlight(file: seq<Entry>, task: Id)
    requires OnePerTask(file) && Find(file, task).Some? && !Find(file, task).value.status.InFlight?
    ensures FirstInFlight(file, task).None?
  {
    FirstInFlightIsThere(file, task);
    var prior := FirstInFlight(file, task);
    if prior.Some? {
      FindInFile(file, prior.value);
    }
  }

  /** A settlement ends the flight of its own task, and never starts one. */
  lemma SettlingEndsFlight(file: seq<Entry>, item: Id, task: Id)
    requires OnePerTask(file) && task != []
    ensures !IsInFlight(RecordSettled(file, task, None), task)
    ensures !IsInFlight(file, task) ==> !IsInFlight(RecordSettled(file, item, None), task)
  {
    hide Upsert, OnePerTask;
    if IsInFlight(file, task) {
      FirstInFlightFound(file, task);
      FindAfterUpsert(file, Find(file, task).value.(status := RecentlySettled), task);
    } else if Find(file, task).Some? {
      OneInFlight(file, task);
    } else {
      NothingToSettle(file, task);
    }
    if item != task {
      SettlingOthersKeepsEntry(file, task, item, None);
    }
  }

  lemma {:induction false} ListedAreNotInFlight(file: seq<Entry>, items: seq<Id>, task: Id)
    requires OnePerTask(file) && task != []
    ensures task in items || !IsInFlight(file, task) ==> !IsInFlight(RecordAllSettled(file, items), task)
  {
    hide RecordSettled, OnePerTask, IsInFlight;
    if items != [] {
      var before, item := items[..|items| - 1], items[|items| - 1];
      ListedAreNotInFlight(file, before, task);
      SettlingOnePerTask(file, before);
      SettlingEndsFlight(RecordAllSettled(file, before), item, task);
      assert items == before + [item];
    }
  }

  lemma {:induction false} ExpiredAreNotInFlight(file: seq<Entry>, r: Registry, leases: seq<Id>, task: Id)
    requires OnePerTask(file) && task != []
    ensures (exists l :: l in leases && task in SettledBy(r, l)) || !IsInFlight(file, task) ==> !IsInFlight(RecordExpired(file, r, leases), task)
  {
    hide RecordAllSettled, OnePerTask, IsInFlight, SettledBy;
    if leases != [] {
      var before, last := leases[..|leases| - 1], leases[|leases| - 1];
      ExpiredAreNotInFlight(file, r, before, task);
      ExpiringOnePerTask(file, r, before);
      ListedAreNotInFlight(RecordExpired(file, r, before), SettledBy(r, last), task);
      assert leases == before + [last];
    }
  }

  /** Whatever a release or a cancel answers with is no longer in flight. */
  lemma EndedIsRecorded(file: seq<Entry>, op: Op, e: Effect, task: Id)
    requires OnePerTask(file) && task != []
    ensures e.outcome.Ended? && task in e.outcome.settled ==> !IsInFlight(Recorded(file, op, e), task)
    ensures op.DoCancelWork? && e.outcome.CancelledItems? && op.item == task ==> !IsInFlight(Recorded(file, op, e), task)
  {
    hide RecordSettled, RecordAllSettled, OnePerTask, IsInFlight;
    if e.outcome.Ended? {
      ListedAreNotInFlight(file, e.outcome.settled, task);
    }
    if op.DoCancelWork? {
      SettlingEndsFlight(file, op.item, task);
    }
  }

  /**
   * After an accepted reply its task is in flight only if the reply's own claim is of an older epoch than
   * the flight on record; a usable claim that is not older is what is then on record, as settled.
   */
  lemma ReplyIsRecorded(file: seq<Entry>, op: Op, e: Effect)
    requires OnePerTask(file) && op.DoSaveReply? && e.outcome.Accepted? && op.env.task != []
    ensures var task, claim, prior := op.env.task, DecodeClaim(op.claim), Find(file, op.env.task);
            var n := Recorded(file, op, e);
            && (IsInFlight(n, task) <==> IsInFlight(file, task) && claim.Some? && claim.value.epoch < prior.value.epoch)
            && (claim.Some? && (prior.None? || claim.value.epoch >= prior.value.epoch) ==>
                  Find(n, task) == Some(Entry(task, claim.value.epoch, claim.value.holder, RecentlySettled)))
  {
    hide Upsert, OnePerTask, DecodeClaim;
    var task, claim := op.env.task, DecodeClaim(op.claim);
    if claim.Some? {
      FindAfterUpsert(file, Entry(task, claim.value.epoch, claim.value.holder, RecentlySettled), task);
    } else {
      SettlingEndsFlight(file, task, task);
    }
  }

  // ---------------------------------------------------------------------
  // Expired sessions
  // ---------------------------------------------------------------------

  lemma {:induction false} StaleAreThose(cfg: Config, r: Registry, ids: seq<Id>, now: int, l: Id)
    ensures l in StaleLeases(cfg, r, ids, now) <==> l in ids && l in r.byLease && IsStale(cfg, r.byLease[l], now)
    decreases |ids|
  {
    hide IsStale;
    if ids != [] {
      StaleAreThose(cfg, r, ids[..|ids| - 1], now, l);
      assert ids == ids[..|ids| - 1] + [ids[|ids| - 1]];
    }
  }

  /** The message ended and one of the sessions that expired lists the item. */
  ghost predicate IsListed(cfg: Config, s: State, n: State, leases: seq<Id>, now: int, item: Id) {
    exists l :: l in leases && l in s.registry.byLease && IsStale(cfg, s.registry.byLease[l], now) && item in SettledBy(n.registry, l)
  }

  /** Work that ends when sessions expire is listed by one of them. */
  lemma {:induction false} ExpiryLists(cfg: Config, s: State, leases: seq<Id>, now: int, id: Id, item: Id)
    requires Inv(s) && id in s.work.byId && IsBusy(s.work.byId[id].status) && ReportsAs(s.work.byId[id].env, item)
    ensures var n := ExpireSessions(cfg, s, leases, now);
            && id in n.work.byId && n.work.byId[id].env == s.work.byId[id].env
            && (!IsBusy(n.work.byId[id].status) ==> IsListed(cfg, s, n, leases, now, item))
    decreases |leases|
  {
    hide Inv, IsStale, ReportsAs, EndSession, Settling, Covered, SettledBy;
    if leases != [] {
      var lease, rest := leases[|leases| - 1], leases[..|leases| - 1];
      var before := ExpireSessions(cfg, s, rest, now);
      ExpiryLists(cfg, s, rest, now, id, item);
      ExpireSessionsKeeps(cfg, s, rest, now);
      assert leases == rest + [lease];
      if lease in before.registry.byLease && IsStale(cfg, before.registry.byLease[lease], now) {
        EndingLists(cfg, s, before, rest, lease, now, id, item);
      } else if !IsBusy(before.work.byId[id].status) {
        ListedStays(cfg, s, before, before, rest, lease, now, item);
      }
    }
  }

  lemma ListedStays(cfg: Config, s: State, b: State, n: State, rest: seq<Id>, lease: Id, now: int, item: Id)
    requires IsListed(cfg, s, b, rest, now, item)
    requires forall l :: l in rest && l in s.registry.byLease && IsStale(cfg, s.registry.byLease[l], now) ==> SettledBy(n.registry, l) == SettledBy(b.registry, l)
    ensures IsListed(cfg, s, n, rest + [lease], now, item)
  {
    hide IsStale, SettledBy;
    var l :| l in rest && l in s.registry.byLease && IsStale(cfg, s.registry.byLease[l], now) && item in SettledBy(b.registry, l);
    assert l in rest + [lease];
  }

  lemma EndingLists(cfg: Config, s: State, before: State, rest: seq<Id>, lease: Id, now: int, id: Id, item: Id)
    requires Inv(s) && Inv(before) && before == ExpireSessions(cfg, s, rest, now)
    requires lease in before.registry.byLease && IsStale(cfg, before.registry.byLease[lease], now)
    requires id in before.work.byId && ReportsAs(before.work.byId[id].env, item)
    requires !IsBusy(before.work.byId[id].status) ==> IsListed(cfg, s, before, rest, now, item)
    ensures var n := EndSession(before, lease, Expired, now);
            && id in n.work.byId && n.work.byId[id].env == before.work.byId[id].env
            && (!IsBusy(n.work.byId[id].status) ==> IsListed(cfg, s, n, rest + [lease], now, item))
  {
    hide Inv, ReportsAs, SettleAgent, Settling, Covered, ConcernsAgent, ExpireSessions;
    var x := before.registry.byLease[lease];
    var n := EndSession(before, lease, Expired, now);
    EndSessionKeeps(before, lease, Expired, now);
    StillStale(cfg, s, rest, lease, now);
    SettleAgentDecides(before, before.work.order, x.agent, x.project, now, id);
    SettleAgentReports(before, before.work.order, x.agent, x.project, now, item);
    hide IsStale;
    if IsBusy(before.work.byId[id].status) && !IsBusy(n.work.byId[id].status) {
      assert item in SettledBy(n.registry, lease);
      assert lease in rest + [lease];
    } else if !IsBusy(before.work.byId[id].status) {
      ListedStays(cfg, s, before, n, rest, lease, now, item);
    }
  }

  /** A session that is stale after part of the pass was stale before it, and has not been ended by it. */
  lemma StillStale(cfg: Config, s: State, rest: seq<Id>, lease: Id, now: int)
    requires Inv(s)
    requires var b := ExpireSessions(cfg, s, rest, now).registry; lease in b.byLease && IsStale(cfg, b.byLease[lease], now)
    ensures lease in s.registry.byLease && IsStale(cfg, s.registry.byLease[lease], now)
    ensures lease !in rest
  {
    ExpireSessionsDecides(cfg, s, rest, now, lease);
    hide Grace, ExpireSessions;
  }

  /** After an expiry pass no task whose work it ended is in flight. */
  lemma ExpiryIsRecorded(cfg: Config, s: State, file: seq<Entry>, now: int, id: Id)
    requires Inv(s) && OnePerTask(file) && id in s.work.byId && !HasEnded(s.work.byId[id].status) && s.work.byId[id].env.task != []
    ensures var e := Act(cfg, s, DoExpireSessions, now);
            && id in e.state.work.byId
            && (HasEnded(e.state.work.byId[id].status) ==> !IsInFlight(Recorded(file, DoExpireSessions, e), s.work.byId[id].env.task))
  {
    hide Inv, OnePerTask, ExpireSessions, StaleLeases, RecordExpired, IsInFlight, SettledBy, IsStale;
    var task := s.work.byId[id].env.task;
    var e := Act(cfg, s, DoExpireSessions, now);
    BusyHasNotEnded(s.work.byId[id].status);
    ExpiryLists(cfg, s, s.registry.order, now, id, task);
    BusyHasNotEnded(e.state.work.byId[id].status);
    var stale := StaleLeases(cfg, s.registry, s.registry.order, now);
    ExpiredAreNotInFlight(file, e.state.registry, stale, task);
    if HasEnded(e.state.work.byId[id].status) {
      var l :| l in s.registry.order && l in s.registry.byLease && IsStale(cfg, s.registry.byLease[l], now) && task in SettledBy(e.state.registry, l);
      StaleAreThose(cfg, s.registry, s.registry.order, now, l);
    }
  }
}

/** The service writes each lease transition to the checkpoint beside the authoritative store; the two agree. */
module Service {
  import opened Basics
  import opened Jobs
  import opened BrokerState
  import opened BrokerOps
  import opened BrokerInvariants
  import opened BrokerSteps
  import opened BrokerActs
  import opened Checkpoint

  // ---------------------------------------------------------------------
  // What each call records
  // ---------------------------------------------------------------------

  predicate IsSpace(c: char) {
    c == ' ' || '\t' <= c <= '\r' || '\U{1C}' <= c <= '\U{1F}'
  }

  function Strip(s: Id): Id {
    if s != [] && IsSpace(s[0]) then Strip(s[1..])
    else if s != [] && IsSpace(s[|s| - 1]) then Strip(s[..|s| - 1])
    else s
  }

  /** An epoch with a usable holder; a holder of blanks only is none. */
  function Decode(epoch: int, holder: Id): Option<LiveLease> {
    if Strip(holder) == [] then None else Some(LiveLease(epoch, Strip(holder)))
  }

  function DecodeLease(lease: Option<Lease>): Option<LiveLease> {
    match lease case None => None case Some(l) => Decode(l.epoch, l.holder)
  }

  function DecodeClaim(claim: Assertion): Option<LiveLease> {
    match claim case Unasserted => None case Asserted(epoch, holder) => Decode(epoch, holder)
  }

  function RecordInFlight(file: seq<Entry>, task: Id, lease: Option<LiveLease>): seq<Entry> {
    if task == [] || lease.None? then file else Upsert(file, Entry(task, lease.value.epoch, lease.value.holder, InFlight))
  }

  function FirstInFlight(file: seq<Entry>, task: Id): Option<Entry> {
    if file == [] then None
    else if file[0].status.InFlight? && file[0].task == task then Some(file[0])
    else FirstInFlight(file[1..], task)
  }

  /** Without a usable lease the entry still in flight supplies epoch and holder. */
  function RecordSettled(file: seq<Entry>, task: Id, lease: Option<LiveLease>): seq<Entry> {
    var prior := FirstInFlight(file, task);
    if task == [] then file
    else if lease.Some? then Upsert(file, Entry(task, lease.value.epoch, lease.value.holder, RecentlySettled))
    else if prior.Some? then Upsert(file, prior.value.(status := RecentlySettled))
    else file
  }

  function RecordAllSettled(file: seq<Entry>, items: seq<Id>): seq<Entry> {
    if items == [] then file
    else RecordSettled(RecordAllSettled(file, items[..|items| - 1]), items[|items| - 1], None)
  }

  function SettledBy(r: Registry, lease: Id): seq<Id> {
    if lease in r.byLease then r.byLease[lease].settled else []
  }

  function RecordExpired(file: seq<Entry>, r: Registry, leases: seq<Id>): seq<Entry> {
    if leases == [] then file
    else RecordAllSettled(RecordExpired(file, r, leases[..|leases| - 1]), SettledBy(r, leases[|leases| - 1]))
  }

  /** The checkpoint after a call, given what the store answered. */
  function Recorded(file: seq<Entry>, op: Op, e: Effect): seq<Entry> {
    match e.outcome
    case Delivery(task, granted) => RecordInFlight(file, task, DecodeLease(granted))
    case LeaseRenewed(lease) => if op.DoHeartbeatJob? then RecordInFlight(file, op.task, DecodeLease(Some(lease))) else file
    case LeaseReclaimed(lease, _) => if op.DoReclaimJob? then RecordInFlight(file, op.task, DecodeLease(Some(lease))) else file
    case Accepted => if op.DoSaveReply? then RecordSettled(file, op.env.task, DecodeClaim(op.claim)) else file
    case CancelledItems(_) => if op.DoCancelWork? then RecordSettled(file, op.item, None) else file
    case Ended(settled) => RecordAllSettled(file, settled)
    case ExpiredSessions(leases) => RecordExpired(file, e.state.registry, leases)
    case _ => file
  }

  datatype World = World(store: State, file: seq<Entry>)

  const FRESH := World(EMPTY, [])

  ghost function Serve(cfg: Config, w: World, op: Op, now: int): World {
    var e := Apply(cfg, w.store, op, now);
    World(e.state, Recorded(w.file, op, e))
  }

  /** The live leases by bare task id, as the store reports them. */
  ghost predicate IsSnapshot(b: Board, live: map<Id, LiveLease>) {
    && (forall k :: k in b.jobs && b.jobs[k].lease.Some? ==> b.jobs[k].id in live)
    && forall t :: t in live ==>
         exists k :: k in b.jobs && b.jobs[k].id == t && b.jobs[k].lease.Some?
                     && live[t] == LiveLease(b.jobs[k].lease.value.epoch, b.jobs[k].lease.value.holder)
  }

  // ---------------------------------------------------------------------
  // Agreement
  // ---------------------------------------------------------------------

  ghost predicate IsFinished(b: Board, key: Id) {
    key in b.jobs && IsTerminal(b.jobs[key].status)
  }

  /**
   * The checkpoint agrees with the store about one task: a live lease is in flight there with the same
   * epoch and holder, and a task that was never leased has no entry.
   */
  ghost predicate Agrees(b: Board, file: seq<Entry>, project: Id, task: Id) {
    var key := Key(project, task);
    match LeaseAt(b, key)
    case Some(l) => Find(file, task) == Some(Entry(task, l.epoch, l.holder, InFlight))
    case None => IsFinished(b, key) || Find(file, task).None?
  }

  /** No lease is granted or changed, and no job disappears or restarts. */
  ghost predicate NoGrants(b: Board, n: Board) {
    && Quiet(b, n)
    && forall k :: k in n.jobs && n.jobs[k].lease.Some? ==> k in b.jobs && b.jobs[k].lease == n.jobs[k].lease
  }

  lemma QuietKeepsAgreement(b: Board, n: Board, file: seq<Entry>, project: Id, task: Id)
    requires NoGrants(b, n) && BoardOK(n) && Agrees(b, file, project, task)
    ensures Agrees(n, file, project, task)
  {
    hide Key;
  }

  lemma FinishedAgrees(b: Board, file: seq<Entry>, project: Id, task: Id)
    requires BoardOK(b) && IsFinished(b, Key(project, task))
    ensures Agrees(b, file, project, task)
  {
    hide Key;
  }

  lemma SettlingOthersKeepsEntry(file: seq<Entry>, task: Id, item: Id, lease: Option<LiveLease>)
    requires item != task
    ensures Find(RecordSettled(file, item, lease), task) == Find(file, task)
  {
    var prior := FirstInFlight(file, item);
    if lease.Some? {
      FindAfterUpsert(file, Entry(item, lease.value.epoch, lease.value.holder, RecentlySettled), task);
    } else if prior.Some? {
      FirstInFlightIsThere(file, item);
      FindAfterUpsert(file, prior.value.(status := RecentlySettled), task);
    }
  }

  lemma FirstInFlightIsThere(file: seq<Entry>, task: Id)
    ensures var prior := FirstInFlight(file, task);
            prior.Some? ==> prior.value in file && prior.value.task == task && prior.value.status.InFlight?
  {
  }

  /** A settlement without a lease leaves a task that has no entry without one. */
  lemma NothingToSettle(file: seq<Entry>, task: Id)
    requires Find(file, task).None?
    ensures RecordSettled(file, task, None) == file
  {
    FirstInFlightIsThere(file, task);
  }

  /** Recording the very lease a task has, or its first, or its next, makes the checkpoint agree. */
  lemma RecordingAgrees(b: Board, n: Board, file: seq<Entry>, project: Id, task: Id, now: int, reclaimed: bool)
    requires JobStep(b, n, Key(project, task), reclaimed, now) && Agrees(b, file, project, task)
    requires task != [] && LeaseAt(n, Key(project, task)).Some?
    requires var h := LeaseAt(n, Key(project, task)).value.holder; h != [] && Strip(h) == h
    ensures Agrees(n, RecordInFlight(file, task, DecodeLease(LeaseAt(n, Key(project, task)))), project, task)
  {
    hide Key, Strip;
    var l := LeaseAt(n, Key(project, task)).value;
    FindAfterUpsert(file, Entry(task, l.epoch, l.holder, InFlight), task);
  }

  lemma RecordingOthersKeepsEntry(file: seq<Entry>, task: Id, other: Id, lease: Option<LiveLease>)
    requires other != task
    ensures Find(RecordInFlight(file, other, lease), task) == Find(file, task)
  {
    if lease.Some? {
      FindAfterUpsert(file, Entry(other, lease.value.epoch, lease.value.holder, InFlight), task);
    }
  }
}

/** The panel's transcript follower and its protocol with the bounded store. */
module Follower {
  import opened Basics
  import opened Transcript

  const FETCH_LIMIT: nat := 200

  /** A real event the follower took, with the cursor it moved from and the truncation mark recorded by then. */
  datatype Acceptance = Acceptance(event: Event, from: nat, mark: nat)

  datatype Follow = Follow(
    cursor: nat, truncated: bool, truncatedBefore: nat, accepted: seq<Acceptance>, shown: seq<Text>)

  const FRESH := Follow(0, false, 0, [], [])

  function Handle(f: Follow, e: Event): Follow {
    if IsMarker(e) then
      f.(truncated := true, truncatedBefore := Max(f.truncatedBefore, e.seqNo))
    else if e.seqNo <= f.cursor then f
    else
      f.(cursor := e.seqNo,
         accepted := f.accepted + [Acceptance(e, f.cursor, f.truncatedBefore)],
         shown := if e.kind.AssistantDelta? then f.shown + [e.text] else f.shown)
  }

  /** The retention notice, and it alone, marks without being taken; an event at or below the cursor is passed over; any other is taken, and shown if it is assistant text. */
  lemma HandleDecides(f: Follow, e: Event)
    ensures var n := Handle(f, e);
            if e.kind == System && e.text == RetentionNotice then
              n == f.(truncated := true, truncatedBefore := n.truncatedBefore) && n.truncatedBefore == Max(f.truncatedBefore, e.seqNo)
            else if e.seqNo <= f.cursor then n == f
            else
              && n.cursor == e.seqNo && n.truncated == f.truncated && n.truncatedBefore == f.truncatedBefore
              && n.accepted == f.accepted + [Acceptance(e, f.cursor, f.truncatedBefore)]
              && n.shown == if e.kind == AssistantDelta then f.shown + [e.text] else f.shown
  {
  }

  function HandleAll(f: Follow, events: seq<Event>): Follow
    decreases |events|
  {
    if events == [] then f else HandleAll(Handle(f, events[0]), events[1..])
  }

  lemma HandleAllSplit(f: Follow, a: seq<Event>, b: seq<Event>)
    ensures HandleAll(f, a + b) == HandleAll(HandleAll(f, a), b)
    decreases |a|
  {
    if a == [] {
      assert a + b == b;
    } else {
      assert (a + b)[1..] == a[1..] + b;
      HandleAllSplit(Handle(f, a[0]), a[1..], b);
    }
  }

  // ---------------------------------------------------------------------
  // The transcriber object
  // ---------------------------------------------------------------------

  function FollowOf(follows: map<string, Follow>, key: string): Follow {
    if key in follows then follows[key] else FRESH
  }

  class FollowTranscriber {
    var follows: map<string, Follow>
    var activeGeneration: nat
    var currentFollowKey: Option<string>

    constructor ()
      ensures follows == map[] && activeGeneration == 0 && currentFollowKey == None
    {
      follows, activeGeneration, currentFollowKey := map[], 0, None;
    }

    method AbortActive()
      modifies this`activeGeneration, this`currentFollowKey
      ensures activeGeneration == old(activeGeneration) + 1 && currentFollowKey == None
    {
      activeGeneration := activeGeneration + 1;
      currentFollowKey := None;
    }

    method StartPoll(followKey: string) returns (generation: nat)
      modifies this`activeGeneration, this`currentFollowKey
      ensures generation == activeGeneration == old(activeGeneration) + 1
      ensures currentFollowKey == Some(followKey)
    {
      currentFollowKey := Some(followKey);
      activeGeneration := activeGeneration + 1;
      generation := activeGeneration;
    }

    /** One response of the poll loop; a response of an older generation changes nothing. */
    method OnResponse(generation: nat, followKey: string, events: seq<Event>)
      modifies this`follows
      ensures follows ==
              if generation != activeGeneration then old(follows)
              else old(follows)[followKey := HandleAll(FollowOf(old(follows), followKey), events)]
    {
      if generation != activeGeneration {
        return;
      }
      var follow := FollowOf(follows, followKey);
      ghost var start := follow;
      for i := 0 to |events|
        invariant follow == HandleAll(start, events[..i]) && follows == old(follows)
      {
        var event := events[i];
        assert events[..i + 1] == events[..i] + [event];
        HandleAllSplit(start, events[..i], [event]);
        if event.kind.System? && event.text.RetentionNotice? {
          follow := follow.(truncated := true, truncatedBefore := Max(follow.truncatedBefore, event.seqNo));
          continue;
        }
        if event.seqNo <= follow.cursor {
          continue;
        }
        follow := follow.(cursor := event.seqNo, accepted := follow.accepted + [Acceptance(event, follow.cursor, follow.truncatedBefore)]);
        if event.kind.AssistantDelta? {
          follow := follow.(shown := follow.shown + [event.text]);
        }
      }
      assert events[..|events|] == events;
      follows := follows[followKey := follow];
    }
  }

  // ---------------------------------------------------------------------
  // What a follower may claim about the history
  // ---------------------------------------------------------------------

  /** Assistant text in the order it was accepted. */
  function DeltaTexts(accepted: seq<Acceptance>): seq<Text> {
    if accepted == [] then []
    else
      var last := accepted[|accepted| - 1].event;
      DeltaTexts(accepted[..|accepted| - 1]) + (if last.kind.AssistantDelta? then [last.text] else [])
  }

  /** The accepted events are true history events and lead the cursor from 0 strictly upwards. */
  ghost predicate Climbs(accepted: seq<Acceptance>, cursor: nat, history: seq<Event>) {
    if accepted == [] then cursor == 0
    else
      var last := accepted[|accepted| - 1];
      && last.from < cursor <= |history|
      && last.event == history[cursor - 1]
      && last.event.seqNo == cursor
      && Climbs(accepted[..|accepted| - 1], last.from, history)
  }

  ghost predicate Genuine(f: Follow, history: seq<Event>) {
    Climbs(f.accepted, f.cursor, history) && f.shown == DeltaTexts(f.accepted)
  }

  /**
   * Every sequence skipped before this acceptance is at or below the mark recorded by then, and the mark
   * reaches the accepted sequence itself unless the event right before it imitates the marker.
   */
  predicate IsMarked(a: Acceptance, history: seq<Event>) {
    var q := a.event.seqNo;
    a.from + 1 < q && q - 2 < |history| ==> q - 1 <= a.mark && (!IsMarker(history[q - 2]) ==> q <= a.mark)
  }

  ghost predicate GapsAreMarked(f: Follow, history: seq<Event>) {
    forall i :: 0 <= i < |f.accepted| ==> IsMarked(f.accepted[i], history)
  }

  /**
   * An acceptance from a page that began at index `base`: after a gap the mark falls one short of the
   * accepted sequence exactly when the event right before it was on the page and imitates the marker.
   */
  predicate IsMarkedExactly(a: Acceptance, history: seq<Event>, base: nat) {
    var q := a.event.seqNo;
    a.from + 1 < q && q - 2 < |history| ==>
      q - 1 <= a.mark <= q && (a.mark == q - 1 <==> base <= q - 2 && IsMarker(history[q - 2]))
  }

  /** The mark never runs ahead of what was served: beyond the next event to come it covers imitations only. */
  ghost predicate NotAhead(f: Follow, history: seq<Event>, base: nat) {
    var b := Max(base, f.cursor);
    || f.truncatedBefore <= b + 1
    || (f.truncatedBefore <= |history| && forall i :: b <= i < f.truncatedBefore ==> IsMarker(history[i]))
  }

  lemma ClimbsInSteps(accepted: seq<Acceptance>, cursor: nat, history: seq<Event>)
    requires Climbs(accepted, cursor, history)
    ensures forall i :: 0 <= i < |accepted| ==>
              && 1 <= accepted[i].event.seqNo <= cursor <= |history|
              && accepted[i].event == history[accepted[i].event.seqNo - 1]
    ensures accepted != [] ==> accepted[0].from == 0 && accepted[|accepted| - 1].event.seqNo == cursor
    ensures forall i, j :: 0 <= i && j == i + 1 < |accepted| ==> accepted[j].from == accepted[i].event.seqNo
  {
    if accepted != [] {
      var before, last := accepted[..|accepted| - 1], accepted[|accepted| - 1];
      ClimbsInSteps(before, last.from, history);
      assert accepted == before + [last];
    }
  }

  lemma ClimbsOrdered(accepted: seq<Acceptance>, cursor: nat, history: seq<Event>)
    requires Climbs(accepted, cursor, history)
    ensures forall i :: 0 <= i < |accepted| ==> accepted[i].event.seqNo <= cursor
    ensures forall i, j :: 0 <= i < j < |accepted| ==> accepted[i].event.seqNo < accepted[j].event.seqNo
  {
    if accepted != [] {
      ClimbsOrdered(accepted[..|accepted| - 1], accepted[|accepted| - 1].from, history);
    }
  }

  lemma ClimbsExtends(accepted: seq<Acceptance>, cursor: nat, history: seq<Event>, other: seq<Event>)
    requires Climbs(accepted, cursor, history) && cursor <= |other|
    requires history <= other || other <= history
    ensures Climbs(accepted, cursor, other)
  {
    if accepted != [] {
      ClimbsExtends(accepted[..|accepted| - 1], accepted[|accepted| - 1].from, history, other);
    }
  }

  lemma HistoryIsNumbered(batches: seq<Batch>)
    ensures IsNumbered(History(batches))
  {
  }

  lemma {:induction false} HistoryGrows(batches: seq<Batch>, n: nat)
    requires n <= |batches|
    ensures History(batches[..n]) <= History(batches)
  {
    if n == |batches| {
      assert batches[..n] == batches;
    } else {
      var before := batches[..|batches| - 1];
      HistoryGrows(before, n);
      assert before[..n] == batches[..n];
      assert Accepted(before) <= Accepted(batches);
    }
  }

  /** Where in the history a page read at `cursor` begins and ends. */
  ghost function PageStart(log: Log, history: seq<Event>, cursor: nat): nat
    requires |log.events| <= |history|
  {
    if ShowsMarker(log, cursor) then |history| - |log.events| else cursor
  }

  ghost function PageEnd(log: Log, history: seq<Event>, cursor: nat, limit: nat): nat
    requires |log.events| <= |history| && cursor <= |history|
  {
    var start := PageStart(log, history, cursor);
    if |history| - start <= limit then |history| else start + limit
  }

  lemma PageOfHistory(log: Log, history: seq<Event>, cursor: nat, limit: nat)
    requires Retains(log, history) && IsNumbered(history) && cursor <= |history|
    ensures var start, end := PageStart(log, history, cursor), PageEnd(log, history, cursor, limit);
            && start == Max(Dropped(log), cursor) && cursor <= start <= end <= |history|
            && Read(log, cursor, limit).events ==
               (if ShowsMarker(log, cursor) then [MarkerAt(start + 1)] else []) + history[start..end]
            && EventsAfter(log.events, cursor) == history[start..]
  {
    ReadOfRetained(log, history, cursor);
    var start, end := PageStart(log, history, cursor), PageEnd(log, history, cursor, limit);
    assert Take(From(history, start), limit) == history[start..end];
  }

  /** How many history events retention has dropped. */
  function Dropped(log: Log): nat {
    if |log.events| < log.nextSeq then log.nextSeq - 1 - |log.events| else 0
  }

  lemma {:induction false} DroppedGrows(batches: seq<Batch>, n: nat, caps: Caps)
    requires n <= |batches|
    ensures Dropped(Replay(batches[..n], caps)) <= Dropped(Replay(batches, caps))
  {
    if n == |batches| {
      assert batches[..n] == batches;
    } else {
      var before := batches[..|batches| - 1];
      DroppedGrows(before, n, caps);
      assert before[..n] == batches[..n];
    }
  }

  // ---------------------------------------------------------------------
  // Handling one page
  // ---------------------------------------------------------------------

  /** Where the cursor stands after the events from `lo` to `hi`: at the last that does not imitate the marker. */
  function Landing(history: seq<Event>, lo: nat, hi: nat, cursor: nat): nat
    requires hi <= |history|
  {
    if hi <= lo then cursor else if IsMarker(history[hi - 1]) then Landing(history, lo, hi - 1, cursor) else hi
  }

  lemma {:induction false} LandingFromFront(history: seq<Event>, lo: nat, hi: nat, cursor: nat)
    requires lo < hi <= |history|
    ensures Landing(history, lo, hi, cursor) == Landing(history, lo + 1, hi, if IsMarker(history[lo]) then cursor else lo + 1)
  {
    if lo + 1 < hi {
      LandingFromFront(history, lo, hi - 1, cursor);
    }
  }

  /** Half way through a page that began at `base`: everything from there on was accepted or imitates the marker. */
  ghost predicate Standing(f: Follow, history: seq<Event>, base: nat, lo: nat) {
    && base <= lo <= |history| && f.cursor <= lo
    && (forall i :: Max(base, f.cursor) <= i < lo ==> IsMarker(history[i]))
    && (f.cursor == lo || (lo <= f.truncatedBefore && (lo + 1 <= f.truncatedBefore || (base < lo && IsMarker(history[lo - 1])))))
    && NotAhead(f, history, base)
  }

  lemma TakeOne(f: Follow, history: seq<Event>, base: nat, lo: nat)
    requires IsNumbered(history) && Genuine(f, history) && Standing(f, history, base, lo) && lo < |history|
    ensures var g := Handle(f, history[lo]);
            && Genuine(g, history) && Standing(g, history, base, lo + 1)
            && g.cursor == (if IsMarker(history[lo]) then f.cursor else lo + 1)
            && (g.accepted == f.accepted ||
                  exists a :: g.accepted == f.accepted + [a] && IsMarkedExactly(a, history, base))
  {
    var g := Handle(f, history[lo]);
    if !IsMarker(history[lo]) {
      var a := Acceptance(history[lo], f.cursor, f.truncatedBefore);
      assert g.accepted == f.accepted + [a];
      assert g.accepted[..|g.accepted| - 1] == f.accepted;
      assert IsMarkedExactly(a, history, base);
    }
  }

  ghost predicate AllMarkedExactly(accepted: seq<Acceptance>, first: nat, history: seq<Event>, base: nat) {
    forall i :: first <= i < |accepted| ==> IsMarkedExactly(accepted[i], history, base)
  }

  lemma {:induction false} TakeBlock(f: Follow, history: seq<Event>, base: nat, lo: nat, hi: nat)
    requires IsNumbered(history) && Genuine(f, history) && Standing(f, history, base, lo) && lo <= hi <= |history|
    ensures var g := HandleAll(f, history[lo..hi]);
            && Genuine(g, history) && Standing(g, history, base, hi) && f.accepted <= g.accepted
            && AllMarkedExactly(g.accepted, |f.accepted|, history, base)
            && g.cursor == Landing(history, lo, hi, f.cursor)
    decreases hi - lo
  {
    hide Genuine, Standing, IsMarkedExactly, Landing;
    if lo < hi {
      TakeOne(f, history, base, lo);
      LandingFromFront(history, lo, hi, f.cursor);
      assert history[lo..hi][1..] == history[lo + 1..hi];
      TakeBlock(Handle(f, history[lo]), history, base, lo + 1, hi);
    } else {
      EmptyBlock(history, lo, f.cursor);
    }
  }

  lemma EmptyBlock(history: seq<Event>, lo: nat, cursor: nat)
    requires lo <= |history|
    ensures Landing(history, lo, lo, cursor) == cursor
  {
  }

  /** What every follower satisfies towards the batches the store had taken when it last answered it. */
  ghost predicate FollowerOK(f: Follow, batches: seq<Batch>, caps: Caps) {
    var history := History(batches);
    f.cursor <= |history| && Genuine(f, history) && GapsAreMarked(f, history) && NotAhead(f, history, Dropped(Replay(batches, caps)))
  }

  lemma PageBegins(f: Follow, log: Log, history: seq<Event>)
    requires Retains(log, history) && IsNumbered(history) && f.cursor <= |history|
    requires Genuine(f, history) && NotAhead(f, history, Dropped(log))
    ensures var start := Max(Dropped(log), f.cursor);
            var g := if ShowsMarker(log, f.cursor) then Handle(f, MarkerAt(start + 1)) else f;
            Genuine(g, history) && Standing(g, history, start, start) && g.accepted == f.accepted && g.cursor == f.cursor
  {
  }

  lemma LandingRises(history: seq<Event>, lo: nat, hi: nat, cursor: nat)
    requires hi <= |history| && cursor <= lo
    ensures cursor <= Landing(history, lo, hi, cursor) <= (if lo < hi then hi else cursor)
  {
  }

  /** A page body, after the store's own marker if there is one. */
  lemma TakePage(f: Follow, history: seq<Event>, start: nat, end: nat, marked: bool)
    requires IsNumbered(history) && start <= end <= |history|
    requires var g := if marked then Handle(f, MarkerAt(start + 1)) else f;
             Genuine(g, history) && Standing(g, history, start, start) && g.accepted == f.accepted && g.cursor == f.cursor
    ensures var g := HandleAll(f, (if marked then [MarkerAt(start + 1)] else []) + history[start..end]);
            && Genuine(g, history) && f.accepted <= g.accepted && AllMarkedExactly(g.accepted, |f.accepted|, history, start)
            && g.cursor == Landing(history, start, end, f.cursor) && NotAhead(g, history, start)
  {
    hide Genuine, IsMarkedExactly, Landing, Handle, AllMarkedExactly, NotAhead;
    if marked {
      assert ([MarkerAt(start + 1)] + history[start..end])[1..] == history[start..end];
      TakeBlock(Handle(f, MarkerAt(start + 1)), history, start, start, end);
    } else {
      assert [] + history[start..end] == history[start..end];
      TakeBlock(f, history, start, start, end);
    }
  }

  /** Handling one page read at the follower's own cursor. */
  lemma HandlePage(f: Follow, log: Log, history: seq<Event>, limit: nat)
    requires Retains(log, history) && IsNumbered(history) && f.cursor <= |history|
    requires Genuine(f, history) && NotAhead(f, history, Dropped(log))
    ensures var start, end := PageStart(log, history, f.cursor), PageEnd(log, history, f.cursor, limit);
            var g := HandleAll(f, Read(log, f.cursor, limit).events);
            && Genuine(g, history) && f.accepted <= g.accepted && AllMarkedExactly(g.accepted, |f.accepted|, history, start)
            && start <= end <= |history| && g.cursor == Landing(history, start, end, f.cursor) && g.cursor <= |history|
            && NotAhead(g, history, Dropped(log))
  {
    hide Genuine, Landing, Handle, HandleAll, Read, AllMarkedExactly, IsNumbered, NotAhead, Standing, EventsAfter, Dropped, PageEnd;
    var start, end := PageStart(log, history, f.cursor), PageEnd(log, history, f.cursor, limit);
    PageOfHistory(log, history, f.cursor, limit);
    PageBegins(f, log, history);
    TakePage(f, history, start, end, ShowsMarker(log, f.cursor));
    LandingRises(history, start, end, f.cursor);
    LaterBase(f, HandleAll(f, Read(log, f.cursor, limit).events), history, Dropped(log), start);
  }

  lemma LaterBase(f: Follow, g: Follow, history: seq<Event>, dropped: nat, start: nat)
    requires start == Max(dropped, f.cursor) && f.cursor <= g.cursor && NotAhead(g, history, start)
    ensures NotAhead(g, history, dropped)
  {
  }

  // ---------------------------------------------------------------------
  // The two-party protocol
  // ---------------------------------------------------------------------

  /** A request of one generation; once answered it remembers how many batches the store had taken. */
  datatype Flight = Flight(key: string, after: nat, served: Option<nat>)

  /** `seen` keeps how many batches the store had taken when it served the last page a follower handled. */
  datatype Protocol = Protocol(
    batches: map<string, seq<Batch>>,
    follows: map<string, Follow>,
    seen: map<string, nat>,
    generation: nat,
    active: Option<string>,
    flights: map<nat, Flight>)

  const START := Protocol(map[], map[], map[], 0, None, map[])

  /** One atomic event: an append, a view change, or a step of some generation's poll. */
  datatype Step =
    | Submit(key: string, batch: Batch)
    | Enter(key: string)
    | Leave
    | Poll
    | Serve(generation: nat)
    | Receive(generation: nat)
    | Fail(generation: nat)

  function BatchesOf(s: Protocol, key: string): seq<Batch> {
    if key in s.batches then s.batches[key] else []
  }

  function Seen(s: Protocol, key: string): nat {
    if key in s.seen then s.seen[key] else 0
  }

  /** What the store returned: a page of the log as it was when it served the request. */
  function Response(batches: seq<Batch>, flight: Flight, caps: Caps): seq<Event>
    requires flight.served.Some? && flight.served.value <= |batches|
  {
    Read(Replay(batches[..flight.served.value], caps), flight.after, FETCH_LIMIT).events
  }

  predicate FlightsAreServable(s: Protocol) {
    forall g :: g in s.flights && s.flights[g].served.Some? ==>
      s.flights[g].served.value <= |BatchesOf(s, s.flights[g].key)|
  }

  function Next(s: Protocol, step: Step, caps: Caps): (n: Protocol)
    requires FlightsAreServable(s)
    ensures FlightsAreServable(n)
    ensures forall key :: BatchesOf(s, key) <= BatchesOf(n, key)
  {
    match step
    case Submit(key, batch) => s.(batches := s.batches[key := BatchesOf(s, key) + [batch]])
    case Enter(key) => s.(generation := s.generation + 1, active := Some(key))
    case Leave => s.(generation := s.generation + 1, active := None)
    case Poll =>
      if s.active.None? || s.generation in s.flights then s
      else
        var key := s.active.value;
        s.(flights := s.flights[s.generation := Flight(key, FollowOf(s.follows, key).cursor, None)])
    case Serve(g) =>
      if g !in s.flights || s.flights[g].served.Some? then s
      else s.(flights := s.flights[g := s.flights[g].(served := Some(|BatchesOf(s, s.flights[g].key)|))])
    case Receive(g) =>
      if g !in s.flights || s.flights[g].served.None? then s
      else
        var flight := s.flights[g];
        var events := Response(BatchesOf(s, flight.key), flight, caps);
        if g != s.generation then s.(flights := s.flights - {g})
        else
          s.(flights := s.flights - {g},
             follows := s.follows[flight.key := HandleAll(FollowOf(s.follows, flight.key), events)],
             seen := s.seen[flight.key := flight.served.value])
    case Fail(g) => s.(flights := s.flights - {g})
  }

  function Run(steps: seq<Step>, caps: Caps): (s: Protocol)
    ensures FlightsAreServable(s)
  {
    if steps == [] then START
    else Next(Run(steps[..|steps| - 1], caps), steps[|steps| - 1], caps)
  }

  /** Only the newest generation can still act; its request carries the present cursor and was served no earlier than the last. */
  ghost predicate FlightsAreCurrent(s: Protocol) {
    forall g :: g in s.flights ==>
      && g <= s.generation
      && (g == s.generation ==>
            && s.active == Some(s.flights[g].key) && s.flights[g].after == FollowOf(s.follows, s.flights[g].key).cursor
            && (s.flights[g].served.Some? ==> Seen(s, s.flights[g].key) <= s.flights[g].served.value))
  }

  ghost predicate FollowersAreOK(s: Protocol, caps: Caps) {
    forall key ::
      && Seen(s, key) <= |BatchesOf(s, key)|
      && FollowerOK(FollowOf(s.follows, key), BatchesOf(s, key)[..Seen(s, key)], caps)
  }

  ghost predicate Inv(s: Protocol, caps: Caps) {
    FlightsAreCurrent(s) && FollowersAreOK(s, caps)
  }

  /** A follower stays as it should be while the store takes more batches. */
  lemma FollowerOKLater(f: Follow, batches: seq<Batch>, n: nat, caps: Caps)
    requires n <= |batches| && FollowerOK(f, batches[..n], caps)
    ensures FollowerOK(f, batches, caps)
  {
    hide Replay, History, DeltaTexts, Dropped;
    HistoryGrows(batches, n);
    DroppedGrows(batches, n, caps);
    ClimbsExtends(f.accepted, f.cursor, History(batches[..n]), History(batches));
    ClimbsInSteps(f.accepted, f.cursor, History(batches));
  }

  lemma ExactIsMarked(f: Follow, g: Follow, history: seq<Event>, base: nat)
    requires GapsAreMarked(f, history) && f.accepted <= g.accepted && AllMarkedExactly(g.accepted, |f.accepted|, history, base)
    ensures GapsAreMarked(g, history)
  {
    forall i | 0 <= i < |g.accepted|
      ensures IsMarked(g.accepted[i], history)
    {
      if i < |f.accepted| {
        assert g.accepted[i] == f.accepted[i];
      } else {
        assert IsMarkedExactly(g.accepted[i], history, base);
      }
    }
  }

  /** A follower that handles a page read from the store as it stood after these batches. */
  lemma HandledIsOK(f: Follow, batches: seq<Batch>, caps: Caps)
    requires FollowerOK(f, batches, caps)
    ensures var log, history := Replay(batches, caps), History(batches);
            var g := HandleAll(f, Read(log, f.cursor, FETCH_LIMIT).events);
            && FollowerOK(g, batches, caps) && f.accepted <= g.accepted
            && AllMarkedExactly(g.accepted, |f.accepted|, history, Max(Dropped(log), f.cursor))
  {
    hide Replay, History, DeltaTexts, Climbs, HandleAll, Read, NotAhead, IsMarkedExactly, Landing, GapsAreMarked, AllMarkedExactly;
    var log, history := Replay(batches, caps), History(batches);
    HistoryIsNumbered(batches);
    StoreRetainsHistory(batches, caps);
    PageOfHistory(log, history, f.cursor, FETCH_LIMIT);
    HandlePage(f, log, history, FETCH_LIMIT);
    ExactIsMarked(f, HandleAll(f, Read(log, f.cursor, FETCH_LIMIT).events), history, Max(Dropped(log), f.cursor));
  }

  /** The page a flight of the newest generation brings back, and the batches it was read from. */
  lemma LandingFlight(s: Protocol, g: nat, caps: Caps)
    requires FlightsAreServable(s) && Inv(s, caps) && g == s.generation && g in s.flights && s.flights[g].served.Some?
    ensures var flight := s.flights[g];
            var batches := BatchesOf(s, flight.key)[..flight.served.value];
            var f := FollowOf(s.follows, flight.key);
            && Response(BatchesOf(s, flight.key), flight, caps) == Read(Replay(batches, caps), f.cursor, FETCH_LIMIT).events
            && FollowerOK(f, batches, caps)
  {
    hide FollowerOK, Replay, Read;
    var flight := s.flights[g];
    var batches := BatchesOf(s, flight.key)[..flight.served.value];
    assert batches[..Seen(s, flight.key)] == BatchesOf(s, flight.key)[..Seen(s, flight.key)];
    FollowerOKLater(FollowOf(s.follows, flight.key), batches, Seen(s, flight.key), caps);
  }

  lemma ReceiveKeepsInv(s: Protocol, g: nat, caps: Caps)
    requires FlightsAreServable(s) && Inv(s, caps)
    ensures Inv(Next(s, Receive(g), caps), caps)
  {
    hide FollowerOK, Replay, Read, HandleAll, Response, AllMarkedExactly, Dropped;
    if g in s.flights && s.flights[g].served.Some? && g == s.generation {
      var flight := s.flights[g];
      LandingFlight(s, g, caps);
      HandledIsOK(FollowOf(s.follows, flight.key), BatchesOf(s, flight.key)[..flight.served.value], caps);
    }
  }

  lemma StepKeepsInv(s: Protocol, step: Step, caps: Caps)
    requires FlightsAreServable(s) && Inv(s, caps)
    ensures Inv(Next(s, step, caps), caps)
  {
    hide FollowerOK;
    match step
    case Submit(key, batch) =>
      assert (BatchesOf(s, key) + [batch])[..Seen(s, key)] == BatchesOf(s, key)[..Seen(s, key)];
    case Receive(g) => ReceiveKeepsInv(s, g, caps);
    case _ =>
  }

  lemma {:induction false} RunKeepsInv(steps: seq<Step>, caps: Caps)
    ensures Inv(Run(steps, caps), caps)
  {
    hide Inv;
    if steps == [] {
      StartIsOK(caps);
    } else {
      var before := steps[..|steps| - 1];
      RunKeepsInv(before, caps);
      StepKeepsInv(Run(before, caps), steps[|steps| - 1], caps);
    }
  }

  lemma StartIsOK(caps: Caps)
    ensures Inv(START, caps)
  {
  }

  /** Only the task in view is followed: a step changes no other follower, and none at all while no task is in view. */
  lemma OnlyTheTaskInViewIsFollowed(steps: seq<Step>, step: Step, key: string, caps: Caps)
    requires Run(steps, caps).active != Some(key)
    ensures FollowOf(Next(Run(steps, caps), step, caps).follows, key) == FollowOf(Run(steps, caps).follows, key)
    ensures step.Leave? ==> Next(Run(steps, caps), step, caps).active.None?
  {
    hide HandleAll, Response, Run, FollowersAreOK;
    RunKeepsInv(steps, caps);
  }

  /** In every reachable state each follower is as it should be towards all batches submitted so far. */
  lemma FollowerOKNow(steps: seq<Step>, caps: Caps, key: string)
    ensures FollowerOK(FollowOf(Run(steps, caps).follows, key), BatchesOf(Run(steps, caps), key), caps)
  {
    hide Run, FollowerOK;
    RunKeepsInv(steps, caps);
    var s := Run(steps, caps);
    FollowerOKLater(FollowOf(s.follows, key), BatchesOf(s, key), Seen(s, key), caps);
  }

  /** The sequence a follower had accepted before its i-th acceptance. */
  function Previous(accepted: seq<Acceptance>, i: nat): nat
    requires i < |accepted|
  {
    if i == 0 then 0 else accepted[i - 1].event.seqNo
  }

  /**
   * Everything skipped before an acceptance is at or below the mark recorded by then; the mark reaches the
   * accepted sequence too unless the history event right before it imitates the marker.
   */
  ghost predicate SkipsAreMarked(accepted: seq<Acceptance>, history: seq<Event>) {
    forall i :: 0 <= i < |accepted| && Previous(accepted, i) + 1 < accepted[i].event.seqNo <= |history| ==>
      && accepted[i].event.seqNo - 1 <= accepted[i].mark
      && (!IsMarker(history[accepted[i].event.seqNo - 2]) ==> accepted[i].event.seqNo <= accepted[i].mark)
  }

  lemma MarkedStepByStep(f: Follow, history: seq<Event>)
    requires Climbs(f.accepted, f.cursor, history) && GapsAreMarked(f, history)
    ensures SkipsAreMarked(f.accepted, history)
  {
    hide Climbs;
    ClimbsInSteps(f.accepted, f.cursor, history);
    forall i | 0 <= i < |f.accepted|
      ensures f.accepted[i].from == Previous(f.accepted, i) && IsMarked(f.accepted[i], history)
    {
    }
  }

  /**
   * Safety of the protocol under every interleaving of appends, drops, polls, view switches, failures
   * and delayed responses, whatever workers write: a follower holds only true history events, in strictly
   * rising sequence and each once, and every sequence it skipped was marked by then.
   */
  lemma FollowerIsSafe(steps: seq<Step>, caps: Caps, key: string)
    ensures var s := Run(steps, caps);
            var f := FollowOf(s.follows, key);
            var history := History(BatchesOf(s, key));
            && (forall i :: 0 <= i < |f.accepted| ==>
                  && 1 <= f.accepted[i].event.seqNo <= |history|
                  && f.accepted[i].event == history[f.accepted[i].event.seqNo - 1])
            && (forall i, j :: 0 <= i < j < |f.accepted| ==> f.accepted[i].event.seqNo < f.accepted[j].event.seqNo)
            && f.shown == DeltaTexts(f.accepted)
            && SkipsAreMarked(f.accepted, history)
  {
    hide Run, History, DeltaTexts, Climbs, GapsAreMarked, SkipsAreMarked, NotAhead;
    var s := Run(steps, caps);
    FollowerOKNow(steps, caps, key);
    var f := FollowOf(s.follows, key);
    ClimbsOrdered(f.accepted, f.cursor, History(BatchesOf(s, key)));
    ClimbsInSteps(f.accepted, f.cursor, History(BatchesOf(s, key)));
    MarkedStepByStep(f, History(BatchesOf(s, key)));
  }

  /** After a gap, the mark falls one short of the accepted sequence just where the event before it, from `base` on, is an imitation. */
  ghost predicate MarksFit(accepted: seq<Acceptance>, first: nat, history: seq<Event>, base: nat) {
    forall i :: first <= i < |accepted| && accepted[i].from + 1 < accepted[i].event.seqNo ==>
      var q := accepted[i].event.seqNo;
      q - 2 < |history| && (q <= accepted[i].mark <==> q - 2 < base || !IsMarker(history[q - 2]))
  }

  /**
   * Exactly when the mark falls one short: among the events a landing page makes a follower accept after
   * a gap, the mark is at or past the accepted sequence if and only if the event right before it was
   * already gone from the page or does not imitate the marker.
   */
  lemma MarksAreExact(steps: seq<Step>, caps: Caps)
    requires var s := Run(steps, caps); s.generation in s.flights && s.flights[s.generation].served.Some?
    ensures var s := Run(steps, caps);
            var flight := s.flights[s.generation];
            var f := FollowOf(s.follows, flight.key);
            var g := FollowOf(Next(s, Receive(s.generation), caps).follows, flight.key);
            var batches := BatchesOf(s, flight.key)[..flight.served.value];
            MarksFit(g.accepted, |f.accepted|, History(batches), Max(Dropped(Replay(batches, caps)), f.cursor))
  {
    hide Run, History, Replay, Read, HandleAll, Response, Inv, Dropped, DeltaTexts, NotAhead, GapsAreMarked;
    var s := Run(steps, caps);
    RunKeepsInv(steps, caps);
    var flight := s.flights[s.generation];
    var f := FollowOf(s.follows, flight.key);
    var batches := BatchesOf(s, flight.key)[..flight.served.value];
    LandingFlight(s, s.generation, caps);
    HandledIsOK(f, batches, caps);
    var g := FollowOf(Next(s, Receive(s.generation), caps).follows, flight.key);
    ClimbsInSteps(g.accepted, g.cursor, History(batches));
  }

  // ---------------------------------------------------------------------
  // Progress once appends stop
  // ---------------------------------------------------------------------

  /** `n` undisturbed polls of the present generation. */
  function Cycles(s: Protocol, n: nat, caps: Caps): Protocol
    requires FlightsAreServable(s)
    decreases n
  {
    if n == 0 then s
    else Cycles(Cycle(s, caps), n - 1, caps)
  }

  function Cycle(s: Protocol, caps: Caps): Protocol
    requires FlightsAreServable(s)
  {
    Next(Next(Next(s, Poll, caps), Serve(s.generation), caps), Receive(s.generation), caps)
  }

  lemma OneCycle(s: Protocol, key: string, caps: Caps)
    requires FlightsAreServable(s) && s.active == Some(key) && s.generation !in s.flights
    ensures var n := Cycle(s, caps);
            var f := FollowOf(s.follows, key);
            && n.batches == s.batches && n.active == s.active && n.generation == s.generation && n.flights == s.flights
            && n.follows == s.follows[key := HandleAll(f, Read(Replay(BatchesOf(s, key), caps), f.cursor, FETCH_LIMIT).events)]
  {
    hide HandleAll, Replay, Read;
    var g := s.generation;
    var f := FollowOf(s.follows, key);
    var batches := BatchesOf(s, key);
    var sent := Flight(key, f.cursor, None);
    var answered := Flight(key, f.cursor, Some(|batches|));
    assert Next(s, Poll, caps) == s.(flights := s.flights[g := sent]);
    assert Next(Next(s, Poll, caps), Serve(g), caps) == s.(flights := s.flights[g := sent][g := answered]);
    assert batches[..|batches|] == batches;
    assert s.flights[g := sent][g := answered] - {g} == s.flights;
  }

  /** `n` polls of a store that stays as it is. */
  function Polled(f: Follow, log: Log, n: nat): Follow
    decreases n
  {
    if n == 0 then f else Polled(HandleAll(f, Read(log, f.cursor, FETCH_LIMIT).events), log, n - 1)
  }

  lemma {:induction false} CyclesArePolls(s: Protocol, key: string, n: nat, caps: Caps)
    requires FlightsAreServable(s) && s.active == Some(key) && s.generation !in s.flights
    ensures FollowOf(Cycles(s, n, caps).follows, key) ==
            Polled(FollowOf(s.follows, key), Replay(BatchesOf(s, key), caps), n)
    decreases n
  {
    hide HandleAll, Read, Replay, Cycle;
    if n > 0 {
      OneCycle(s, key, caps);
      CyclesArePolls(Cycle(s, caps), key, n - 1, caps);
    }
  }

  // The events a page serves, and the cursor after `n` pages, as functions of the history alone.

  function NextCursor(history: seq<Event>, dropped: nat, cursor: nat): nat {
    var start := Max(dropped, cursor);
    Landing(history, start, if start + FETCH_LIMIT < |history| then start + FETCH_LIMIT else |history|, cursor)
  }

  function CursorAfter(history: seq<Event>, dropped: nat, cursor: nat, n: nat): nat
    decreases n
  {
    if n == 0 then cursor else CursorAfter(history, dropped, NextCursor(history, dropped, cursor), n - 1)
  }

  lemma {:induction false} PolledCursor(f: Follow, log: Log, history: seq<Event>, n: nat)
    requires Retains(log, history) && IsNumbered(history) && f.cursor <= |history|
    requires Genuine(f, history) && NotAhead(f, history, Dropped(log))
    ensures Polled(f, log, n).cursor == CursorAfter(history, Dropped(log), f.cursor, n) <= |history|
    decreases n
  {
    hide HandleAll, Read, Climbs, DeltaTexts, NotAhead, Genuine, Landing, IsNumbered, AllMarkedExactly, Dropped;
    if n > 0 {
      PageOfHistory(log, history, f.cursor, FETCH_LIMIT);
      HandlePage(f, log, history, FETCH_LIMIT);
      PolledCursor(HandleAll(f, Read(log, f.cursor, FETCH_LIMIT).events), log, history, n - 1);
    }
  }

  ghost predicate HasGenuine(events: seq<Event>, lo: nat, hi: nat) {
    exists i :: lo <= i < hi && i < |events| && !IsMarker(events[i])
  }

  /** Not all of the page length of events from `x` imitate the marker. */
  ghost predicate IsPassable(events: seq<Event>, x: nat) {
    HasGenuine(events, x, x + FETCH_LIMIT)
  }

  /** The last of these events does not imitate the marker, and no page length of them in a row does. */
  ghost predicate IsClear(events: seq<Event>) {
    events == [] ||
    (!IsMarker(events[|events| - 1]) && forall x: nat :: x + FETCH_LIMIT <= |events| ==> IsPassable(events, x))
  }

  lemma LandingIsGenuine(history: seq<Event>, lo: nat, hi: nat, cursor: nat)
    requires hi <= |history|
    ensures var c := Landing(history, lo, hi, cursor);
            && (HasGenuine(history, lo, hi) ==> lo < c <= hi && !IsMarker(history[c - 1]))
            && (!HasGenuine(history, lo, hi) ==> c == cursor)
            && (lo < hi && !IsMarker(history[hi - 1]) ==> c == hi)
  {
    if lo < hi && IsMarker(history[hi - 1]) {
      LandingIsGenuine(history, lo, hi - 1, cursor);
      assert HasGenuine(history, lo, hi) <==> HasGenuine(history, lo, hi - 1);
    } else if lo < hi {
      assert HasGenuine(history, lo, hi);
    }
  }

  /** A clear rest lets every page move the cursor, and stays clear. */
  lemma ClearMovesOn(history: seq<Event>, dropped: nat, cursor: nat)
    requires cursor <= |history| && dropped <= |history| && IsClear(history[Max(dropped, cursor)..]) && Max(dropped, cursor) < |history|
    ensures var c := NextCursor(history, dropped, cursor);
            Max(dropped, cursor) < c <= |history| && IsClear(history[Max(dropped, c)..])
  {
    var start := Max(dropped, cursor);
    var rest := history[start..];
    var end := if start + FETCH_LIMIT < |history| then start + FETCH_LIMIT else |history|;
    assert rest[|rest| - 1] == history[|history| - 1];
    if end == |history| {
      LandingIsGenuine(history, start, end, cursor);
    } else {
      assert IsPassable(rest, 0);
      var i :| 0 <= i < FETCH_LIMIT && i < |rest| && !IsMarker(rest[i]);
      assert !IsMarker(history[start + i]);
      LandingIsGenuine(history, start, end, cursor);
    }
    ClearSuffix(history, start, NextCursor(history, dropped, cursor));
  }

  lemma ClearSuffix(history: seq<Event>, start: nat, later: nat)
    requires start <= later <= |history| && IsClear(history[start..])
    ensures IsClear(history[later..])
  {
    var rest, less := history[start..], history[later..];
    if less != [] {
      assert less[|less| - 1] == rest[|rest| - 1];
      forall x: nat | x + FETCH_LIMIT <= |less|
        ensures IsPassable(less, x)
      {
        var y := x + (later - start);
        assert IsPassable(rest, y);
        var i :| y <= i < y + FETCH_LIMIT && i < |rest| && !IsMarker(rest[i]);
        assert less[i - (later - start)] == rest[i];
      }
    }
  }

  lemma {:induction false} ClearCatchesUp(history: seq<Event>, dropped: nat, cursor: nat, n: nat)
    requires cursor <= |history| && dropped <= |history| && IsClear(history[Max(dropped, cursor)..])
    requires |history| - Max(dropped, cursor) <= n
    ensures var c := CursorAfter(history, dropped, cursor, n); dropped == |history| || c == |history|
    decreases n
  {
    hide IsClear;
    if Max(dropped, cursor) == |history| {
      AtTheEnd(history, dropped, cursor, n);
    } else {
      hide NextCursor;
      ClearMovesOn(history, dropped, cursor);
      ClearCatchesUp(history, dropped, NextCursor(history, dropped, cursor), n - 1);
    }
  }

  lemma {:induction false} AtTheEnd(history: seq<Event>, dropped: nat, cursor: nat, n: nat)
    requires Max(dropped, cursor) == |history|
    ensures CursorAfter(history, dropped, cursor, n) == cursor
    decreases n
  {
    if n > 0 {
      AtTheEnd(history, dropped, cursor, n - 1);
    }
  }

  /** A page length of imitations in a row is never passed, and an imitation at the end never reached. */
  lemma {:induction false} UnclearStalls(history: seq<Event>, dropped: nat, cursor: nat, n: nat)
    requires cursor <= |history| && dropped <= |history| && !IsClear(history[Max(dropped, cursor)..])
    ensures CursorAfter(history, dropped, cursor, n) < |history| && dropped < |history|
    decreases n
  {
    var start := Max(dropped, cursor);
    var rest := history[start..];
    assert rest[|rest| - 1] == history[|history| - 1];
    if IsMarker(rest[|rest| - 1]) {
      EndIsNotReached(history, dropped, cursor, n);
    } else {
      var x: nat :| x + FETCH_LIMIT <= |rest| && !IsPassable(rest, x);
      forall i | start + x <= i < start + x + FETCH_LIMIT
        ensures IsMarker(history[i])
      {
        assert rest[i - start] == history[i];
      }
      WallIsNotPassed(history, dropped, cursor, start + x, n);
    }
  }

  lemma {:induction false} EndIsNotReached(history: seq<Event>, dropped: nat, cursor: nat, n: nat)
    requires Max(dropped, cursor) < |history| && IsMarker(history[|history| - 1])
    ensures CursorAfter(history, dropped, cursor, n) < |history|
    decreases n
  {
    if n > 0 {
      var start := Max(dropped, cursor);
      LandingIsGenuine(history, start, if start + FETCH_LIMIT < |history| then start + FETCH_LIMIT else |history|, cursor);
      EndIsNotReached(history, dropped, NextCursor(history, dropped, cursor), n - 1);
    }
  }

  lemma {:induction false} WallIsNotPassed(history: seq<Event>, dropped: nat, cursor: nat, wall: nat, n: nat)
    requires Max(dropped, cursor) <= wall && wall + FETCH_LIMIT <= |history|
    requires forall i :: wall <= i < wall + FETCH_LIMIT ==> IsMarker(history[i])
    ensures CursorAfter(history, dropped, cursor, n) <= wall
    decreases n
  {
    if n > 0 {
      var start := Max(dropped, cursor);
      LandingIsGenuine(history, start, if start + FETCH_LIMIT < |history| then start + FETCH_LIMIT else |history|, cursor);
      WallIsNotPassed(history, dropped, NextCursor(history, dropped, cursor), wall, n - 1);
    }
  }

  /** A follower that is at the end of what the store retains. */
  ghost predicate HasCaughtUp(log: Log, cursor: nat) {
    log.events != [] ==> log.events[|log.events| - 1].seqNo == cursor
  }

  lemma CaughtUpMeansAtTheEnd(log: Log, history: seq<Event>, cursor: nat)
    requires Retains(log, history) && IsNumbered(history)
    ensures HasCaughtUp(log, cursor) <==> Dropped(log) == |history| || cursor == |history|
  {
  }

  /** Of this history the store has kept this log, and `n` polls take a cursor from `c` to `end`. */
  ghost predicate PollsTo(log: Log, history: seq<Event>, c: nat, end: nat, n: nat) {
    && Retains(log, history) && IsNumbered(history) && c <= |history| && Dropped(log) <= |history|
    && EventsAfter(log.events, c) == history[Max(Dropped(log), c)..]
    && end == CursorAfter(history, Dropped(log), c, n)
  }

  /** What undisturbed polling does to a follower, from any reachable state of the protocol. */
  lemma PollingFromHere(steps: seq<Step>, key: string, n: nat, caps: Caps)
    requires var s := Run(steps, caps); s.active == Some(key) && s.generation !in s.flights
    ensures var s := Run(steps, caps);
            PollsTo(Replay(BatchesOf(s, key), caps), History(BatchesOf(s, key)), FollowOf(s.follows, key).cursor,
                    FollowOf(Cycles(s, n, caps).follows, key).cursor, n)
  {
    hide Run, Replay, Cycles, Polled, History, CursorAfter, GapsAreMarked, Climbs, DeltaTexts, EventsAfter, NotAhead;
    var s := Run(steps, caps);
    var batches := BatchesOf(s, key);
    var f := FollowOf(s.follows, key);
    FollowerOKNow(steps, caps, key);
    HistoryIsNumbered(batches);
    StoreRetainsHistory(batches, caps);
    PageOfHistory(Replay(batches, caps), History(batches), f.cursor, FETCH_LIMIT);
    CyclesArePolls(s, key, n, caps);
    PolledCursor(f, Replay(batches, caps), History(batches), n);
  }

  /**
   * Progress, whatever workers write: once appends stop, an undisturbed follower reaches the last retained
   * event, after enough polls, if and only if there is nothing retained above its cursor, or the last
   * such event does not imitate the marker and no 200 of them in a row do.
   */
  lemma FollowerCatchesUpIff(steps: seq<Step>, key: string, n: nat, caps: Caps)
    requires var s := Run(steps, caps);
             && s.active == Some(key) && s.generation !in s.flights
             && |EventsAfter(Replay(BatchesOf(s, key), caps).events, FollowOf(s.follows, key).cursor)| <= n
    ensures var s := Run(steps, caps);
            var log := Replay(BatchesOf(s, key), caps);
            HasCaughtUp(log, FollowOf(Cycles(s, n, caps).follows, key).cursor)
            <==> IsClear(EventsAfter(log.events, FollowOf(s.follows, key).cursor))
  {
    hide Run, Replay, Cycles, History, CursorAfter, EventsAfter, IsClear, HasCaughtUp, Dropped;
    var s := Run(steps, caps);
    var log, history := Replay(BatchesOf(s, key), caps), History(BatchesOf(s, key));
    var c := FollowOf(s.follows, key).cursor;
    PollingFromHere(steps, key, n, caps);
    CaughtUpMeansAtTheEnd(log, history, CursorAfter(history, Dropped(log), c, n));
    if IsClear(history[Max(Dropped(log), c)..]) {
      ClearCatchesUp(history, Dropped(log), c, n);
    } else {
      UnclearStalls(history, Dropped(log), c, n);
    }
  }

  lemma {:induction false} PlainCatchesUp(history: seq<Event>, dropped: nat, cursor: nat, n: nat)
    requires cursor <= |history| && dropped <= |history| && |history| - Max(dropped, cursor) <= 200 * n
    requires forall i :: Max(dropped, cursor) <= i < |history| ==> !IsMarker(history[i])
    ensures dropped == |history| || CursorAfter(history, dropped, cursor, n) == |history|
    decreases n
  {
    if Max(dropped, cursor) == |history| {
      AtTheEnd(history, dropped, cursor, n);
    } else {
      var start := Max(dropped, cursor);
      LandingIsGenuine(history, start, if start + FETCH_LIMIT < |history| then start + FETCH_LIMIT else |history|, cursor);
      PlainCatchesUp(history, dropped, NextCursor(history, dropped, cursor), n - 1);
    }
  }

  /** And when none of the retained events above its cursor imitates the marker, as many polls as pages do. */
  lemma FollowerCatchesUp(steps: seq<Step>, key: string, n: nat, caps: Caps)
    requires var s := Run(steps, caps);
             var rest := EventsAfter(Replay(BatchesOf(s, key), caps).events, FollowOf(s.follows, key).cursor);
             && s.active == Some(key) && s.generation !in s.flights
             && (forall i :: 0 <= i < |rest| ==> !IsMarker(rest[i])) && |rest| <= 200 * n
    ensures var s := Run(steps, caps);
            HasCaughtUp(Replay(BatchesOf(s, key), caps), FollowOf(Cycles(s, n, caps).follows, key).cursor)
  {
    hide Run, Replay, Cycles, History, CursorAfter, EventsAfter, HasCaughtUp, Dropped;
    var s := Run(steps, caps);
    var log, history := Replay(BatchesOf(s, key), caps), History(BatchesOf(s, key));
    var c := FollowOf(s.follows, key).cursor;
    PollingFromHere(steps, key, n, caps);
    CaughtUpMeansAtTheEnd(log, history, CursorAfter(history, Dropped(log), c, n));
    var rest := history[Max(Dropped(log), c)..];
    forall i | Max(Dropped(log), c) <= i < |history|
      ensures !IsMarker(history[i])
    {
      assert rest[i - Max(Dropped(log), c)] == history[i];
    }
    PlainCatchesUp(history, Dropped(log), c, n);
  }

  /** One worker event imitating the marker, as the last event, is never reached, however often a new follower polls. */
  lemma ForgedMarkerStallsFollower(bytes: nat, n: nat)
    requires 0 < bytes <= 1000
    ensures var log := Replay([Batch("", [RawEvent(Kind.System, RetentionNotice, bytes)])], Caps(1000, 1000));
            log.events == [Event(1, Kind.System, RetentionNotice, bytes)] && !HasCaughtUp(log, Polled(FRESH, log, n).cursor)
  {
    hide Polled;
    var raw := RawEvent(Kind.System, RetentionNotice, bytes);
    var batches := [Batch("", [raw])];
    var log, history := Replay(batches, Caps(1000, 1000)), [ToEvent(raw, 1)];
    assert batches[..0] == [];
    assert Replay(batches[..0], Caps(1000, 1000)) == EMPTY_LOG;
    assert TotalBytes(history[1..]) == 0;
    assert [] + Numbered([raw], 1) == history;
    assert log.events == history;
    assert history[1 - 1..] == history;
    PolledCursor(FRESH, log, history, n);
    EndIsNotReached(history, 0, 0, n);
  }
}

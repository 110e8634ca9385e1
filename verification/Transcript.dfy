/** Bounded per-task transcript: numbering, batch idempotency, retention and cursor reads. */
module Transcript {
  import opened Basics

  /** Event kinds; a worker may leave the kind unset, which reads as assistant text. */
  datatype Kind = Unset | AssistantDelta | System | Other(name: string)

  /** Event text; the store's retention notice is the one fixed text that readers compare against. */
  datatype Text = RetentionNotice | Plain(body: string)

  /** An event as a worker submits it. `bytes` is the size of its encoded form, left arbitrary. */
  datatype RawEvent = RawEvent(kind: Kind, text: Text, bytes: nat)

  datatype Batch = Batch(id: string, events: seq<RawEvent>)

  datatype Event = Event(seqNo: nat, kind: Kind, text: Text, bytes: nat)

  /** Per-task retention limits. */
  datatype Caps = Caps(events: nat, bytes: nat)

  datatype Page = Page(events: seq<Event>, nextSeq: nat)

  /** The stored record of one task; `truncatedBefore` is the first retained sequence once anything was dropped. */
  datatype Log = Log(events: seq<Event>, nextSeq: nat, batchIds: set<string>, truncatedBefore: Option<nat>)

  const EMPTY_LOG := Log([], 1, {}, None)

  function ToEvent(raw: RawEvent, seqNo: nat): Event {
    Event(seqNo, if raw.kind.Unset? then AssistantDelta else raw.kind, raw.text, raw.bytes)
  }

  /** The events of `raws` numbered consecutively from `first`. */
  function Numbered(raws: seq<RawEvent>, first: nat): seq<Event> {
    seq(|raws|, i requires 0 <= i < |raws| => ToEvent(raws[i], first + i))
  }

  function TotalBytes(events: seq<Event>): nat {
    if events == [] then 0 else events[0].bytes + TotalBytes(events[1..])
  }

  predicate Fits(events: seq<Event>, caps: Caps) {
    |events| <= caps.events && TotalBytes(events) <= caps.bytes
  }

  /** How many oldest events retention drops. */
  function DropCount(events: seq<Event>, caps: Caps): (n: nat)
    ensures n <= |events|
  {
    if events == [] || Fits(events, caps) then 0 else 1 + DropCount(events[1..], caps)
  }

  function Max(a: nat, b: nat): nat {
    if a < b then b else a
  }

  function OrZero(w: Option<nat>): nat {
    match w case None => 0 case Some(n) => n
  }

  /** The watermark after dropping the first `dropped` events one by one. */
  function Watermark(before: Option<nat>, events: seq<Event>, dropped: nat): Option<nat>
    requires dropped <= |events|
  {
    if dropped == 0 then before
    else Some(Max(OrZero(Watermark(before, events, dropped - 1)), events[dropped - 1].seqNo + 1))
  }

  predicate IsDuplicate(log: Log, batch: Batch) {
    batch.id != "" && batch.id in log.batchIds
  }

  /** One accepted or deduplicated batch. */
  function Append(log: Log, batch: Batch, caps: Caps): Log {
    if IsDuplicate(log, batch) then log
    else
      var grown := log.events + Numbered(batch.events, log.nextSeq);
      var n := DropCount(grown, caps);
      Log(grown[n..],
          log.nextSeq + |batch.events|,
          if batch.id == "" then log.batchIds else log.batchIds + {batch.id},
          Watermark(log.truncatedBefore, grown, n))
  }

  function Replay(batches: seq<Batch>, caps: Caps): Log {
    if batches == [] then EMPTY_LOG
    else Append(Replay(batches[..|batches| - 1], caps), batches[|batches| - 1], caps)
  }

  /** Retained events with a sequence above the cursor. */
  function EventsAfter(events: seq<Event>, after: int): seq<Event> {
    if events == [] then []
    else (if events[0].seqNo > after then [events[0]] else []) + EventsAfter(events[1..], after)
  }

  function Take<T>(s: seq<T>, n: nat): seq<T> {
    if |s| <= n then s else s[..n]
  }

  function MarkerAt(seqNo: nat): Event {
    Event(seqNo, System, RetentionNotice, 0)
  }

  predicate IsMarker(e: Event) {
    e.kind.System? && e.text.RetentionNotice?
  }

  predicate ShowsMarker(log: Log, after: int) {
    log.truncatedBefore.Some? && after < log.truncatedBefore.value
  }

  function Read(log: Log, after: int, limit: nat): Page {
    var selected := Take(EventsAfter(log.events, after), limit);
    Page((if ShowsMarker(log, after) then [MarkerAt(log.truncatedBefore.value)] else []) + selected, log.nextSeq)
  }

  // ---------------------------------------------------------------------
  // Reference definitions: the unbounded history and its longest fitting suffix
  // ---------------------------------------------------------------------

  /** Every submitted event whose batch id had not been accepted before, in order of submission. */
  ghost function Accepted(batches: seq<Batch>): seq<RawEvent> {
    if batches == [] then []
    else
      var before, last := batches[..|batches| - 1], batches[|batches| - 1];
      if last.id != "" && exists i :: 0 <= i < |before| && before[i].id == last.id
      then Accepted(before)
      else Accepted(before) + last.events
  }

  ghost predicate IsNumbered(history: seq<Event>) {
    forall i :: 0 <= i < |history| ==> history[i].seqNo == i + 1
  }

  ghost function History(batches: seq<Batch>): seq<Event> {
    Numbered(Accepted(batches), 1)
  }

  /** `retained` is the longest suffix of `history` within both caps. */
  ghost predicate IsLongestFittingSuffix(retained: seq<Event>, history: seq<Event>, caps: Caps) {
    && |retained| <= |history|
    && retained == history[|history| - |retained|..]
    && Fits(retained, caps)
    && forall k :: 0 <= k < |history| - |retained| ==> !Fits(history[k..], caps)
  }

  /** The log holds a tail of the history, contiguous up to nextSeq - 1, and its watermark says where it starts. */
  ghost predicate Retains(log: Log, history: seq<Event>) {
    && |log.events| <= |history|
    && log.events == history[|history| - |log.events|..]
    && log.nextSeq == |history| + 1
    && log.truncatedBefore ==
       (if |log.events| == |history| then None else Some(|history| - |log.events| + 1))
  }

  ghost predicate Refines(log: Log, history: seq<Event>, caps: Caps) {
    Retains(log, history) && IsLongestFittingSuffix(log.events, history, caps)
  }

  lemma TotalBytesPrefix(a: seq<Event>, b: seq<Event>)
    ensures TotalBytes(a) <= TotalBytes(a + b)
  {
    if a != [] {
      TotalBytesPrefix(a[1..], b);
      assert (a + b)[1..] == a[1..] + b;
    }
  }

  /** What dropping leaves is within the caps, and nothing longer was. */
  lemma {:induction false} DropCountIsLeast(events: seq<Event>, caps: Caps)
    ensures Fits(events[DropCount(events, caps)..], caps)
    ensures forall k :: 0 <= k < DropCount(events, caps) ==> !Fits(events[k..], caps)
  {
    if events == [] || Fits(events, caps) {
      assert events[0..] == events;
    } else {
      DropCountIsLeast(events[1..], caps);
      var n := DropCount(events[1..], caps);
      assert events[1..][n..] == events[n + 1..];
      forall k | 0 <= k < n + 1
        ensures !Fits(events[k..], caps)
      {
        if k == 0 {
          assert events[0..] == events;
        } else {
          assert events[1..][k - 1..] == events[k..];
        }
      }
    }
  }

  lemma WatermarkIsLastDropped(before: Option<nat>, events: seq<Event>, first: nat, dropped: nat)
    requires 0 < dropped <= |events|
    requires forall i :: 0 <= i < |events| ==> events[i].seqNo == first + i
    requires OrZero(before) <= first
    ensures Watermark(before, events, dropped) == Some(first + dropped)
  {
    if dropped > 1 {
      WatermarkIsLastDropped(before, events, first, dropped - 1);
    }
  }

  /** Retention is oblivious to what was already dropped: cutting `history` twice is cutting it once. */
  lemma DroppingKeepsLongest(retained: seq<Event>, history: seq<Event>, added: seq<Event>, caps: Caps)
    requires IsLongestFittingSuffix(retained, history, caps)
    ensures IsLongestFittingSuffix((retained + added)[DropCount(retained + added, caps)..], history + added, caps)
  {
    var grown, full := retained + added, history + added;
    var n := DropCount(grown, caps);
    var d := |history| - |retained|;
    DropCountIsLeast(grown, caps);
    assert full[d + n..] == grown[n..];
    forall k | 0 <= k < d + n
      ensures !Fits(full[k..], caps)
    {
      if k < d {
        assert full[k..] == history[k..] + added;
        TotalBytesPrefix(history[k..], added);
        assert !Fits(history[k..], caps);
      } else {
        assert full[k..] == grown[k - d..];
      }
    }
  }

  lemma AppendKeepsRefinement(log: Log, history: seq<Event>, batch: Batch, caps: Caps)
    requires Refines(log, history, caps)
    requires !IsDuplicate(log, batch)
    requires IsNumbered(history)
    ensures Refines(Append(log, batch, caps), history + Numbered(batch.events, log.nextSeq), caps)
  {
    var added := Numbered(batch.events, log.nextSeq);
    var grown := log.events + added;
    var n := DropCount(grown, caps);
    DroppingKeepsLongest(log.events, history, added, caps);
    if n > 0 {
      WatermarkIsLastDropped(log.truncatedBefore, grown, |history| - |log.events| + 1, n);
    }
  }

  lemma BatchIdsAreThoseSubmitted(batches: seq<Batch>, caps: Caps)
    ensures forall id :: id in Replay(batches, caps).batchIds <==>
                         id != "" && exists i :: 0 <= i < |batches| && batches[i].id == id
  {
    if batches != [] {
      BatchIdsAreThoseSubmitted(batches[..|batches| - 1], caps);
    }
  }

  /**
   * After any submissions the store holds exactly the longest suffix of the accepted history that
   * meets both caps, numbered without gaps up to nextSeq - 1, and its watermark is the first
   * retained sequence, unset as long as nothing was dropped.
   */
  lemma {:induction false} StoreRefinesHistory(batches: seq<Batch>, caps: Caps)
    ensures Refines(Replay(batches, caps), History(batches), caps)
  {
    if batches == [] {
      assert History(batches) == [];
    } else {
      var before, last := batches[..|batches| - 1], batches[|batches| - 1];
      var log := Replay(before, caps);
      StoreRefinesHistory(before, caps);
      BatchIdsAreThoseSubmitted(before, caps);
      if IsDuplicate(log, last) {
        assert Accepted(batches) == Accepted(before);
      } else {
        assert Accepted(batches) == Accepted(before) + last.events;
        assert History(batches) == History(before) + Numbered(last.events, log.nextSeq);
        AppendKeepsRefinement(log, History(before), last, caps);
      }
    }
  }

  lemma StoreRetainsHistory(batches: seq<Batch>, caps: Caps)
    ensures Retains(Replay(batches, caps), History(batches))
  {
    StoreRefinesHistory(batches, caps);
  }

  /** Each retained event is the accepted one its sequence counts, as submitted; without a kind it is assistant text. */
  lemma EventsAreAsSubmitted(batches: seq<Batch>, caps: Caps, i: nat)
    requires i < |Replay(batches, caps).events|
    ensures var e := Replay(batches, caps).events[i];
            && 1 <= e.seqNo <= |Accepted(batches)|
            && var raw := Accepted(batches)[e.seqNo - 1];
               e.text == raw.text && e.bytes == raw.bytes && e.kind == match raw.kind case Unset => AssistantDelta case k => k
  {
    StoreRetainsHistory(batches, caps);
    hide Accepted, Replay;
  }

  /** Sizes add up. */
  lemma BytesAddUp(a: seq<Event>, b: seq<Event>)
    ensures TotalBytes(a + b) == TotalBytes(a) + TotalBytes(b)
    ensures forall e :: TotalBytes([e]) == e.bytes
  {
    if a == [] {
      assert a + b == b;
    } else {
      BytesAddUp(a[1..], b);
      assert (a + b)[1..] == a[1..] + b;
    }
    assert forall e: Event :: [e][1..] == [];
  }

  /** The store never holds more events, nor more bytes of them, than its caps allow. */
  lemma StoreStaysWithinCaps(batches: seq<Batch>, caps: Caps)
    ensures |Replay(batches, caps).events| <= caps.events && TotalBytes(Replay(batches, caps).events) <= caps.bytes
  {
    StoreRefinesHistory(batches, caps);
    hide Replay;
  }

  lemma EventsAfterIsSuffix(events: seq<Event>, first: nat, after: int)
    requires forall i :: 0 <= i < |events| ==> events[i].seqNo == first + i
    ensures EventsAfter(events, after) ==
            (if after < first then events
             else if after - first + 1 <= |events| then events[after - first + 1..] else [])
  {
    if events != [] {
      EventsAfterIsSuffix(events[1..], first + 1, after);
    }
  }

  /** The part of a history numbered from 1 that lies after a cursor. */
  function From(history: seq<Event>, after: int): seq<Event> {
    if after <= 0 then history else if after <= |history| then history[after..] else []
  }

  lemma ReadOfRetained(log: Log, history: seq<Event>, after: int)
    requires Retains(log, history) && IsNumbered(history)
    ensures EventsAfter(log.events, after) ==
            From(history, if ShowsMarker(log, after) then log.truncatedBefore.value - 1 else after)
  {
    var d := |history| - |log.events|;
    EventsAfterIsSuffix(log.events, d + 1, after);
    if after > d && after - d <= |log.events| {
      assert log.events[after - d..] == history[after..];
    }
  }

  /**
   * Read, for every cursor: without a marker the page is exactly the first `limit` history events
   * after the cursor; with one, it is the marker at the first retained sequence followed by the
   * first `limit` events from there on, and the cursor really lies below that sequence.
   */
  lemma ReadIsPageOfHistory(batches: seq<Batch>, caps: Caps, after: int, limit: nat)
    ensures var log := Replay(batches, caps);
            var page := Read(log, after, limit);
            && page.nextSeq == |History(batches)| + 1
            && if ShowsMarker(log, after)
               then
                 var w := log.truncatedBefore.value;
                 && after < w <= |History(batches)| + 1
                 && page.events == [MarkerAt(w)] + Take(From(History(batches), w - 1), limit)
               else page.events == Take(From(History(batches), after), limit)
  {
    StoreRetainsHistory(batches, caps);
    ReadOfRetained(Replay(batches, caps), History(batches), after);
  }

  /** Resubmitting a batch that carries an id changes nothing, whatever was appended in between. */
  lemma {:induction false} ResubmissionIsIgnored(batches: seq<Batch>, i: nat, events: seq<RawEvent>, caps: Caps)
    requires i < |batches| && batches[i].id != ""
    ensures Replay(batches + [Batch(batches[i].id, events)], caps) == Replay(batches, caps)
  {
    var again := Batch(batches[i].id, events);
    BatchIdsAreThoseSubmitted(batches, caps);
    assert (batches + [again])[..|batches|] == batches;
  }

  // ---------------------------------------------------------------------
  // The store itself
  // ---------------------------------------------------------------------

  function Lookup<V>(m: map<string, V>, key: string, default: V): V {
    if key in m then m[key] else default
  }

  function Get<V>(m: map<string, V>, key: string): Option<V> {
    if key in m then Some(m[key]) else None
  }

  function Put<V>(m: map<string, V>, key: string, v: Option<V>): map<string, V> {
    match v case None => m case Some(x) => m[key := x]
  }

  class MemoryTranscriptStore {
    const caps: Caps
    var transcripts: map<string, seq<Event>>
    var transcriptNextSeq: map<string, nat>
    var transcriptBatchIds: map<string, set<string>>
    var transcriptTruncatedBefore: map<string, nat>

    constructor (caps: Caps)
      ensures this.caps == caps
      ensures forall key :: LogOf(key) == EMPTY_LOG
    {
      this.caps := caps;
      transcripts, transcriptNextSeq, transcriptBatchIds, transcriptTruncatedBefore := map[], map[], map[], map[];
    }

    function LogOf(key: string): Log
      reads this
    {
      Log(Lookup(transcripts, key, []),
          Lookup(transcriptNextSeq, key, 1),
          Lookup(transcriptBatchIds, key, {}),
          Get(transcriptTruncatedBefore, key))
    }

    /** Drop oldest events one at a time, raising the watermark with each. */
    method DropOldestEvents(key: string, grown: seq<Event>) returns (events: seq<Event>)
      modifies this`transcriptTruncatedBefore
      ensures events == grown[DropCount(grown, caps)..]
      ensures transcriptTruncatedBefore ==
              Put(old(transcriptTruncatedBefore), key, Watermark(old(Get(transcriptTruncatedBefore, key)), grown, DropCount(grown, caps)))
    {
      events := grown;
      ghost var dropped: nat := 0;
      while events != [] && !(|events| <= caps.events && TotalBytes(events) <= caps.bytes)
        invariant dropped <= |grown| && events == grown[dropped..]
        invariant DropCount(grown, caps) == dropped + DropCount(events, caps)
        invariant transcriptTruncatedBefore ==
                  Put(old(transcriptTruncatedBefore), key, Watermark(old(Get(transcriptTruncatedBefore, key)), grown, dropped))
      {
        var oldest := events[0];
        events := events[1..];
        transcriptTruncatedBefore :=
          transcriptTruncatedBefore[key := Max(OrZero(Get(transcriptTruncatedBefore, key)), oldest.seqNo + 1)];
        dropped := dropped + 1;
      }
    }

    static method NumberEvents(retained: seq<Event>, first: nat, raws: seq<RawEvent>)
        returns (events: seq<Event>, nextSeq: nat)
      ensures events == retained + Numbered(raws, first)
      ensures nextSeq == first + |raws|
    {
      events, nextSeq := retained, first;
      for i := 0 to |raws|
        invariant nextSeq == first + i
        invariant events == retained + Numbered(raws[..i], first)
      {
        events := events + [ToEvent(raws[i], nextSeq)];
        nextSeq := nextSeq + 1;
      }
      assert raws[..|raws|] == raws;
    }

    method AppendTranscriptBatch(key: string, batch: Batch) returns (recorded: bool)
      modifies this
      ensures recorded == !old(IsDuplicate(LogOf(key), batch))
      ensures LogOf(key) == Append(old(LogOf(key)), batch, caps)
      ensures forall k :: k != key ==> LogOf(k) == old(LogOf(k))
    {
      var seen := Lookup(transcriptBatchIds, key, {});
      transcriptBatchIds := transcriptBatchIds[key := seen];
      if batch.id != "" && batch.id in seen {
        return false;
      }
      RecordBatch(key, batch);
      recorded := true;
    }

    /** The part of an append that follows the idempotency check. */
    method RecordBatch(key: string, batch: Batch)
      requires !IsDuplicate(LogOf(key), batch)
      modifies this
      ensures var log := Append(old(LogOf(key)), batch, caps);
              && transcripts == old(transcripts)[key := log.events]
              && transcriptNextSeq == old(transcriptNextSeq)[key := log.nextSeq]
              && transcriptBatchIds == old(transcriptBatchIds)[key := log.batchIds]
              && transcriptTruncatedBefore == Put(old(transcriptTruncatedBefore), key, log.truncatedBefore)
    {
      var seen := Lookup(transcriptBatchIds, key, {});
      transcriptBatchIds := transcriptBatchIds[key := if batch.id == "" then seen else seen + {batch.id}];
      var events, nextSeq := NumberEvents(Lookup(transcripts, key, []), Lookup(transcriptNextSeq, key, 1), batch.events);
      transcriptNextSeq := transcriptNextSeq[key := nextSeq];
      events := DropOldestEvents(key, events);
      transcripts := transcripts[key := events];
    }

    function ReadTranscriptEvents(key: string, after: int, limit: nat): Page
      reads this
    {
      Read(LogOf(key), after, limit)
    }
  }
}

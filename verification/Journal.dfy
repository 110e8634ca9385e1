/** The JSONL journal: record text, append, atomic rewrite, repair on load, compaction, and crashes between them. */
module Journal {
  import opened Basics

  // ---------------------------------------------------------------------
  // Record text: a bracketed string whose angle brackets, backslashes and newlines are escaped
  // ---------------------------------------------------------------------

  function EscapeChar(c: char): string {
    if c == '<' then ['\\', 'o']
    else if c == '>' then ['\\', 'c']
    else if c == '\\' then ['\\', '\\']
    else if c == '\n' then ['\\', 'n']
    else [c]
  }

  function Escape(s: string): string {
    if s == [] then [] else EscapeChar(s[0]) + Escape(s[1..])
  }

  /** One record as a single line, without its newline. */
  function Encode(snapshot: string): string {
    ['<'] + Escape(snapshot) + ['>']
  }

  function Unescape(c: char): Option<char> {
    match c
    case 'o' => Some('<')
    case 'c' => Some('>')
    case '\\' => Some('\\')
    case 'n' => Some('\n')
    case _ => None
  }

  function Prepend(c: char, rest: Option<string>): Option<string> {
    match rest case None => None case Some(s) => Some([c] + s)
  }

  /** The text after the opening bracket; another one, or anything after the closing bracket, is an error. */
  function DecodeBody(text: string): Option<string> {
    if text == [] then None
    else if text[0] == '>' then (if |text| == 1 then Some([]) else None)
    else if text[0] == '<' || text[0] == '\n' then None
    else if text[0] != '\\' then Prepend(text[0], DecodeBody(text[1..]))
    else if |text| == 1 || Unescape(text[1]).None? then None
    else Prepend(Unescape(text[1]).value, DecodeBody(text[2..]))
  }

  function Decode(line: string): Option<string> {
    if line == [] || line[0] != '<' then None else DecodeBody(line[1..])
  }

  lemma DecodeOneChar(c: char, rest: string)
    ensures DecodeBody(EscapeChar(c) + rest) == Prepend(c, DecodeBody(rest))
  {
    var text := EscapeChar(c) + rest;
    assert text[|EscapeChar(c)|..] == rest;
  }

  lemma {:induction false} DecodeBodyInverts(s: string, tail: string)
    ensures DecodeBody(Escape(s) + tail) ==
            (match DecodeBody(tail) case None => None case Some(t) => Some(s + t))
  {
    hide DecodeBody, EscapeChar;
    if s == [] {
      assert Escape(s) + tail == tail;
      assert forall t: string :: [] + t == t;
    } else {
      var rest := Escape(s[1..]) + tail;
      assert Escape(s) + tail == EscapeChar(s[0]) + rest;
      DecodeOneChar(s[0], rest);
      DecodeBodyInverts(s[1..], tail);
      assert forall t: string :: [s[0]] + (s[1..] + t) == s + t;
    }
  }

  lemma EncodeRoundTrips(s: string)
    ensures Decode(Encode(s)) == Some(s)
  {
    DecodeBodyInverts(s, ['>']);
    assert Encode(s)[1..] == Escape(s) + ['>'];
    assert s + [] == s;
  }

  lemma EncodeHasNoNewline(s: string)
    ensures '\n' !in Encode(s) && Encode(s) != []
  {
    EscapeHasNoNewline(s);
  }

  lemma EscapeHasNoNewline(s: string)
    ensures '\n' !in Escape(s)
  {
  }

  /** A prefix of an escaped body has no closing bracket; alone or before another record it never decodes. */
  lemma {:induction false} EscapePrefixUndecodable(s: string, n: nat, tail: string)
    requires n <= |Escape(s)| && (tail == [] || tail[0] == '<')
    ensures DecodeBody(Escape(s)[..n] + tail) == None
  {
    var text := Escape(s)[..n] + tail;
    if s == [] || n == 0 {
      assert text == tail;
    } else {
      var head := EscapeChar(s[0]);
      if n >= |head| {
        var rest := Escape(s[1..])[..n - |head|] + tail;
        EscapePrefixUndecodable(s[1..], n - |head|, tail);
        assert text == head + rest;
        DecodeOneChar(s[0], rest);
      } else {
        assert text == ['\\'] + tail;
      }
    }
  }

  lemma TornRecordUndecodable(s: string, n: nat)
    requires n < |Encode(s)|
    ensures Decode(Encode(s)[..n]) == None
  {
    if n > 0 {
      EscapePrefixUndecodable(s, n - 1, []);
      assert Encode(s)[..n][1..] == Escape(s)[..n - 1] + [];
    }
  }

  /** Two records on one line do not decode, and neither does any record followed by part of another. */
  lemma JoinedRecordsUndecodable(a: string, tail: string)
    requires tail != []
    ensures Decode(Encode(a) + tail) == None
  {
    assert (Encode(a) + tail)[1..] == Escape(a) + (['>'] + tail);
    DecodeBodyInverts(a, ['>'] + tail);
  }

  /** Neither does any part of a record followed by another. */
  lemma PartBeforeRecordUndecodable(a: string, n: nat, b: string)
    requires 0 < n <= |Encode(a)|
    ensures Decode(Encode(a)[..n] + Encode(b)) == None
  {
    hide DecodeBody, Escape;
    if n == |Encode(a)| {
      assert Encode(a)[..n] == Encode(a);
      JoinedRecordsUndecodable(a, Encode(b));
    } else {
      EscapePrefixUndecodable(a, n - 1, Encode(b));
      assert (Encode(a)[..n] + Encode(b))[1..] == Escape(a)[..n - 1] + Encode(b);
    }
  }

  // ---------------------------------------------------------------------
  // Lines and loading
  // ---------------------------------------------------------------------

  function FirstNewline(text: string): (n: nat)
    ensures n <= |text|
    ensures n < |text| ==> text[n] == '\n'
    ensures forall i :: 0 <= i < n ==> text[i] != '\n'
  {
    if text == [] || text[0] == '\n' then 0 else 1 + FirstNewline(text[1..])
  }

  /** The file's lines without newlines; text after the last newline is a line of its own. */
  function Lines(text: string): seq<string>
    decreases |text|
  {
    if text == [] then []
    else
      var n := FirstNewline(text);
      if n == |text| then [text] else [text[..n]] + Lines(text[n + 1..])
  }

  lemma LinesOfLine(line: string, rest: string)
    requires '\n' !in line
    ensures Lines(line + ['\n'] + rest) == [line] + Lines(rest)
  {
    var text := line + ['\n'] + rest;
    var n := FirstNewline(text);
    assert text[|line|] == '\n';
    assert forall i :: 0 <= i < |line| ==> text[i] == line[i];
    assert text[..n] == line && text[n + 1..] == rest;
  }

  datatype Loaded = Loaded(latest: Option<string>, valid: seq<string>, corrupt: bool)

  /** Read lines in order, skip blank ones, stop trusting the file at the first that does not decode. */
  function Load(lines: seq<string>): Loaded {
    if lines == [] then Loaded(None, [], false)
    else if lines[0] == [] then Load(lines[1..])
    else if Decode(lines[0]).None? then Loaded(None, [], true)
    else
      var rest := Load(lines[1..]);
      Loaded(if rest.latest.None? then Decode(lines[0]) else rest.latest, [lines[0]] + rest.valid, rest.corrupt)
  }

  function Unlines(lines: seq<string>): string {
    if lines == [] then [] else lines[0] + ['\n'] + Unlines(lines[1..])
  }

  /** The file after start-up: rewritten to its valid lines when a corrupt one was met. */
  function Repaired(file: string): string {
    var loaded := Load(Lines(file));
    if loaded.corrupt then Unlines(loaded.valid) else file
  }

  /** The file holding exactly these records, each on its own line. */
  function FileOf(records: seq<string>): string {
    if records == [] then [] else Encode(records[0]) + ['\n'] + FileOf(records[1..])
  }

  function Last(records: seq<string>): Option<string> {
    if records == [] then None else Some(records[|records| - 1])
  }

  function Encoded(records: seq<string>): seq<string> {
    if records == [] then [] else [Encode(records[0])] + Encoded(records[1..])
  }

  lemma UnlinesIsFile(records: seq<string>)
    ensures Unlines(Encoded(records)) == FileOf(records)
    ensures |Encoded(records)| == |records|
  {
  }

  lemma {:induction false} FileOfAppend(records: seq<string>, s: string)
    ensures FileOf(records + [s]) == FileOf(records) + Encode(s) + ['\n']
  {
    hide Encode;
    if records == [] {
      assert FileOf([s][1..]) == [];
      assert records + [s] == [s];
    } else {
      FileOfAppend(records[1..], s);
      assert (records + [s])[1..] == records[1..] + [s];
      var first := Encode(records[0]) + ['\n'];
      assert FileOf(records + [s]) == first + FileOf(records[1..] + [s]);
      assert FileOf(records) == first + FileOf(records[1..]);
    }
  }

  /** Loading complete records followed by a tail that is empty or one undecodable line. */
  lemma {:induction false} LoadOfFile(records: seq<string>, torn: string)
    requires '\n' !in torn && (torn != [] ==> Decode(torn) == None)
    ensures Load(Lines(FileOf(records) + torn)) == Loaded(Last(records), Encoded(records), torn != [])
  {
    hide Encode, Decode;
    if records == [] {
      assert FileOf(records) + torn == torn;
      if torn != [] {
        var n := FirstNewline(torn);
        assert Lines(torn) == [torn];
      }
    } else {
      var rest := FileOf(records[1..]) + torn;
      EncodeHasNoNewline(records[0]);
      EncodeRoundTrips(records[0]);
      LoadOfFile(records[1..], torn);
      assert FileOf(records) + torn == Encode(records[0]) + ['\n'] + rest;
      hide Lines, FileOf;
      LinesOfLine(Encode(records[0]), rest);
      var lines := Lines(FileOf(records) + torn);
      assert lines[0] == Encode(records[0]) && lines[1..] == Lines(rest);
    }
  }

  lemma RepairRestoresCleanFile(records: seq<string>, torn: string)
    requires '\n' !in torn && (torn != [] ==> Decode(torn) == None)
    ensures Repaired(FileOf(records) + torn) == FileOf(records)
  {
    LoadOfFile(records, torn);
    UnlinesIsFile(records);
    assert FileOf(records) + [] == FileOf(records);
  }

  // ---------------------------------------------------------------------
  // The machine: one process over one file, with crashes
  // ---------------------------------------------------------------------

  datatype Limits = Limits(maxBytes: nat, maxRecords: nat)

  const INITIAL: string := []

  /** `completed` lists the snapshots of all records ever completed, in order; the process cannot see it. */
  datatype Machine = Machine(file: string, up: bool, memory: string, recordCount: nat, completed: seq<string>)

  const OFF := Machine([], false, INITIAL, 0, [])

  datatype Step =
    | Mutate(state: string)
    | Record(compacts: bool)
    | RecordThenCrash(replaced: bool)
    | TornRecord(cut: nat)
    | Crash
    | Start
    | StartThenCrash(replaced: bool)

  predicate NeedsCompaction(file: string, count: nat, limits: Limits) {
    !(|file| < limits.maxBytes && count < limits.maxRecords)
  }

  /** The file and record count after appending the present state's record. */
  function Appended(m: Machine): Machine {
    m.(file := m.file + Encode(m.memory) + ['\n'], recordCount := m.recordCount + 1, completed := m.completed + [m.memory])
  }

  function Compacted(m: Machine): Machine {
    m.(file := Encode(m.memory) + ['\n'], recordCount := 1)
  }

  function Started(m: Machine): Machine {
    var loaded := Load(Lines(m.file));
    m.(file := Repaired(m.file), up := true, recordCount := |loaded.valid|,
       memory := match loaded.latest case None => INITIAL case Some(s) => s)
  }

  function Next(m: Machine, step: Step, limits: Limits): Machine {
    match step
    case Mutate(s) => if m.up then m.(memory := s) else m
    case Record(compacts) =>
      if !m.up then m
      else
        var a := Appended(m);
        if compacts && NeedsCompaction(a.file, a.recordCount, limits) then Compacted(a) else a
    case RecordThenCrash(replaced) =>
      if !m.up then m
      else
        var a := Appended(m);
        (if replaced && NeedsCompaction(a.file, a.recordCount, limits) then Compacted(a) else a).(up := false)
    case TornRecord(cut) =>
      if !m.up || cut >= |Encode(m.memory)| then m
      else m.(file := m.file + Encode(m.memory)[..cut], up := false)
    case Crash => m.(up := false)
    case Start => if m.up then m else Started(m)
    case StartThenCrash(replaced) => if m.up || !replaced then m else m.(file := Repaired(m.file))
  }

  function Run(steps: seq<Step>, limits: Limits): Machine {
    if steps == [] then OFF else Next(Run(steps[..|steps| - 1], limits), steps[|steps| - 1], limits)
  }

  /** The file is complete records, ending with the last one completed, and at most one torn tail. */
  ghost predicate Inv(m: Machine, records: seq<string>, torn: string) {
    && m.file == FileOf(records) + torn
    && Last(records) == Last(m.completed)
    && '\n' !in torn
    && (torn != [] ==> Decode(torn) == None)
    && (m.up ==> torn == [] && m.recordCount == |records|)
  }

  lemma AppendedKeepsInv(m: Machine, records: seq<string>)
    requires m.up && Inv(m, records, [])
    ensures Inv(Appended(m), records + [m.memory], [])
  {
    FileOfAppend(records, m.memory);
    assert FileOf(records) + [] == FileOf(records);
    var f := FileOf(records + [m.memory]);
    assert f + [] == f;
  }

  lemma CompactedKeepsInv(m: Machine, records: seq<string>)
    requires m.up && Inv(m, records, []) && Last(records) == Some(m.memory)
    ensures Inv(Compacted(m), [m.memory], [])
  {
    assert FileOf([m.memory][1..]) == [];
    var f := FileOf([m.memory]);
    assert f + [] == f;
  }

  lemma RecordKeepsInv(m: Machine, records: seq<string>, compacts: bool, limits: Limits) returns (kept: seq<string>)
    requires m.up && Inv(m, records, [])
    ensures Inv(Next(m, Record(compacts), limits), kept, [])
    ensures Inv(Next(m, RecordThenCrash(compacts), limits), kept, [])
    ensures kept == [m.memory] || kept == records + [m.memory]
  {
    AppendedKeepsInv(m, records);
    kept := records + [m.memory];
    var a := Appended(m);
    if compacts && NeedsCompaction(a.file, a.recordCount, limits) {
      CompactedKeepsInv(a, kept);
      kept := [m.memory];
    }
  }

  lemma StartKeepsInv(m: Machine, records: seq<string>, torn: string)
    requires !m.up && Inv(m, records, torn)
    ensures Inv(Started(m), records, []) && Inv(m.(file := Repaired(m.file)), records, [])
    ensures Started(m).memory == (match Last(m.completed) case None => INITIAL case Some(s) => s)
  {
    LoadOfFile(records, torn);
    RepairRestoresCleanFile(records, torn);
    UnlinesIsFile(records);
    assert FileOf(records) + [] == FileOf(records);
  }

  lemma TornKeepsInv(m: Machine, records: seq<string>, cut: nat)
    requires m.up && Inv(m, records, []) && cut < |Encode(m.memory)|
    ensures Inv(m.(file := m.file + Encode(m.memory)[..cut], up := false), records, Encode(m.memory)[..cut])
  {
    EncodeHasNoNewline(m.memory);
    TornRecordUndecodable(m.memory, cut);
    assert FileOf(records) + [] == FileOf(records);
  }

  lemma {:induction false} RunKeepsInv(steps: seq<Step>, limits: Limits) returns (records: seq<string>, torn: string)
    ensures Inv(Run(steps, limits), records, torn)
  {
    if steps == [] {
      records, torn := [], [];
    } else {
      var m := Run(steps[..|steps| - 1], limits);
      records, torn := RunKeepsInv(steps[..|steps| - 1], limits);
      match steps[|steps| - 1]
      case Record(compacts) =>
        if m.up {
          records := RecordKeepsInv(m, records, compacts, limits);
        }
      case RecordThenCrash(replaced) =>
        if m.up {
          records := RecordKeepsInv(m, records, replaced, limits);
        }
      case TornRecord(cut) =>
        if m.up && cut < |Encode(m.memory)| {
          TornKeepsInv(m, records, cut);
          torn := Encode(m.memory)[..cut];
        }
      case Start =>
        if !m.up {
          StartKeepsInv(m, records, torn);
          torn := [];
        }
      case StartThenCrash(replaced) =>
        if !m.up && replaced {
          StartKeepsInv(m, records, torn);
          torn := [];
        }
      case _ =>
    }
  }

  /**
   * Crash recovery: after any run of mutations, records, compactions, crashes, torn appends and
   * interrupted start-ups, the next start restores exactly the state of the last completed record, and
   * the file it leaves takes the next record on a line of its own, so that record survives in turn.
   */
  lemma RestartRestoresLastRecord(steps: seq<Step>, next: string, limits: Limits)
    requires !Run(steps, limits).up
    ensures var m := Run(steps, limits);
            var started := Started(m);
            && started.memory == (match Last(m.completed) case None => INITIAL case Some(s) => s)
            && Started(Appended(started.(memory := next)).(up := false)).memory == next
  {
    var m := Run(steps, limits);
    var records, torn := RunKeepsInv(steps, limits);
    StartKeepsInv(m, records, torn);
    var again := Started(m).(memory := next);
    AppendedKeepsInv(again, records);
    StartKeepsInv(Appended(again).(up := false), records + [next], []);
  }

  /** A recorded mutation completes a record of the very state it made. */
  lemma MutationsAreRecorded(steps: seq<Step>, state: string, compacts: bool, limits: Limits)
    requires Run(steps, limits).up
    ensures var n := Next(Next(Run(steps, limits), Mutate(state), limits), Record(compacts), limits);
            n.up && n.memory == state && n.completed == Run(steps, limits).completed + [state]
  {
    hide Encode, Run;
  }

  /** A completed record is remembered until a later one completes, whatever crashes in between. */
  lemma RecordSurvives(before: seq<Step>, after: seq<Step>, limits: Limits)
    requires Run(before, limits).completed == Run(before + after, limits).completed != []
    requires !Run(before + after, limits).up
    ensures Some(Started(Run(before + after, limits)).memory) == Last(Run(before, limits).completed)
  {
    RestartRestoresLastRecord(before + after, [], limits);
  }

  /** Bound: a recorded operation whose compaction does not fail leaves one record or a file under both limits. */
  lemma JournalIsBounded(steps: seq<Step>, limits: Limits)
    requires Run(steps, limits).up
    ensures var m := Next(Run(steps, limits), Record(true), limits);
            && m.recordCount == |Load(Lines(m.file)).valid|
            && (m.recordCount == 1 || (|m.file| < limits.maxBytes && m.recordCount < limits.maxRecords))
  {
    var records, torn := RunKeepsInv(steps, limits);
    records := RecordKeepsInv(Run(steps, limits), records, true, limits);
    LoadOfFile(records, []);
    UnlinesIsFile(records);
  }

  /**
   * The tear that loses only the newline: the loader accepts that record but leaves the file without a
   * line end, so the next record is lost at the following start. Recovery of the next record holds
   * exactly for the shorter tears.
   */
  lemma NextRecordSurvivesIffShorterTear(records: seq<string>, s: string, cut: nat, next: string)
    requires cut <= |Encode(s)| && next != (match Last(records) case None => INITIAL case Some(r) => r)
    ensures var torn := Machine(FileOf(records) + Encode(s)[..cut], false, INITIAL, 0, []);
            var recorded := Appended(Started(torn).(memory := next));
            Started(recorded.(up := false)).memory == next <==> cut < |Encode(s)|
  {
    var torn := Machine(FileOf(records) + Encode(s)[..cut], false, INITIAL, 0, records);
    if cut < |Encode(s)| {
      EncodeHasNoNewline(s);
      TornRecordUndecodable(s, cut);
      StartKeepsInv(torn, records, Encode(s)[..cut]);
      AppendedKeepsInv(Started(torn).(memory := next), records);
      StartKeepsInv(Appended(Started(torn).(memory := next)).(up := false), records + [next], []);
    } else {
      LostNewline(records, s, next);
      assert Encode(s)[..cut] == Encode(s);
    }
  }

  lemma {:induction false} LinesOfFile(records: seq<string>, rest: string)
    ensures Lines(FileOf(records) + rest) == Encoded(records) + Lines(rest)
  {
    hide Encode, Lines;
    if records == [] {
      assert FileOf(records) + rest == rest;
    } else {
      EncodeHasNoNewline(records[0]);
      LinesOfFile(records[1..], rest);
      LinesOfLine(Encode(records[0]), FileOf(records[1..]) + rest);
      assert FileOf(records) + rest == Encode(records[0]) + ['\n'] + (FileOf(records[1..]) + rest);
    }
  }

  lemma LoadWithoutNewline(records: seq<string>, tail: string)
    requires '\n' !in tail && tail != []
    ensures Lines(FileOf(records) + tail + ['\n']) == Encoded(records) + [tail]
    ensures Lines(FileOf(records) + tail) == Encoded(records) + [tail]
  {
    LinesOfFile(records, tail);
    LinesOfFile(records, tail + ['\n']);
    assert FileOf(records) + tail + ['\n'] == FileOf(records) + (tail + ['\n']);
    assert tail + ['\n'] + [] == tail + ['\n'];
    LinesOfLine(tail, []);
    assert FirstNewline(tail) == |tail|;
  }

  lemma {:induction false} LoadEncoded(records: seq<string>, tail: string)
    requires tail != []
    ensures var loaded := Load(Encoded(records) + [tail]);
            && loaded.corrupt == Decode(tail).None?
            && (Decode(tail).None? ==> loaded.latest == Last(records) && loaded.valid == Encoded(records))
  {
    var lines := Encoded(records) + [tail];
    if records == [] {
      assert lines[1..] == [];
    } else {
      EncodeHasNoNewline(records[0]);
      EncodeRoundTrips(records[0]);
      assert lines[1..] == Encoded(records[1..]) + [tail];
      LoadEncoded(records[1..], tail);
    }
  }

  lemma LostNewline(records: seq<string>, s: string, next: string)
    ensures var torn := Machine(FileOf(records) + Encode(s), false, INITIAL, 0, []);
            var recorded := Appended(Started(torn).(memory := next));
            Started(recorded.(up := false)).memory == (match Last(records) case None => INITIAL case Some(r) => r)
  {
    hide Encode, Lines, Load, Decode, FileOf, Repaired;
    var file := FileOf(records) + Encode(s);
    var joined := Encode(s) + Encode(next);
    UnterminatedRecordIsKept(records, s);
    JoinedLineIsDropped(records, s, next);
    assert file + Encode(next) + ['\n'] == FileOf(records) + joined + ['\n'];
  }

  lemma UnterminatedRecordIsKept(records: seq<string>, s: string)
    ensures Repaired(FileOf(records) + Encode(s)) == FileOf(records) + Encode(s)
  {
    hide Encode, Lines, Load, Decode, FileOf, Encoded, Unlines;
    EncodeHasNoNewline(s);
    EncodeRoundTrips(s);
    LoadWithoutNewline(records, Encode(s));
    LoadEncoded(records, Encode(s));
  }

  lemma JoinedLineIsDropped(records: seq<string>, s: string, next: string)
    ensures Load(Lines(FileOf(records) + (Encode(s) + Encode(next)) + ['\n'])).latest == Last(records)
  {
    hide Encode, Lines, Load, Decode, FileOf, Encoded;
    EncodeHasNoNewline(s);
    EncodeHasNoNewline(next);
    JoinedRecordsUndecodable(s, Encode(next));
    LoadWithoutNewline(records, Encode(s) + Encode(next));
    LoadEncoded(records, Encode(s) + Encode(next));
  }

  // ---------------------------------------------------------------------
  // An append that fails part-way while the process lives on
  // ---------------------------------------------------------------------

  /** Part of the line may be in the file; the caller gets an error and the record is not counted. */
  function FailedAppend(m: Machine, cut: nat): Machine
    requires cut <= |Encode(m.memory)| + 1
  {
    m.(file := m.file + (Encode(m.memory) + ['\n'])[..cut])
  }

  /** Further recorded mutations, none of which compacts. */
  function RecordEach(m: Machine, states: seq<string>): Machine {
    if states == [] then m
    else Appended(RecordEach(m, states[..|states| - 1]).(memory := states[|states| - 1]))
  }

  lemma {:induction false} RecordEachAppends(m: Machine, states: seq<string>)
    ensures RecordEach(m, states).file == m.file + FileOf(states)
  {
    hide Encode;
    if states != [] {
      var before, last := states[..|states| - 1], states[|states| - 1];
      RecordEachAppends(m, before);
      assert states == before + [last];
      FileOfAppend(before, last);
    }
  }

  lemma {:induction false} FileOfSum(a: seq<string>, b: seq<string>)
    ensures FileOf(a + b) == FileOf(a) + FileOf(b)
  {
    hide Encode;
    if a == [] {
      assert a + b == b;
    } else {
      assert (a + b)[1..] == a[1..] + b;
      FileOfSum(a[1..], b);
    }
  }

  /** Loading stops at an undecodable line, whatever complete records follow it. */
  lemma {:induction false} LoadStops(records: seq<string>, line: string, rest: string)
    requires '\n' !in line && line != [] && Decode(line).None?
    ensures Load(Lines(FileOf(records) + (line + ['\n'] + rest))).latest == Last(records)
  {
    hide Encode, Lines, Decode;
    var text := line + ['\n'] + rest;
    if records == [] {
      assert FileOf(records) + text == text;
      LinesOfLine(line, rest);
    } else {
      LoadStops(records[1..], line, rest);
      EncodeHasNoNewline(records[0]);
      EncodeRoundTrips(records[0]);
      assert FileOf(records) + text == Encode(records[0]) + ['\n'] + (FileOf(records[1..]) + text);
      LinesOfLine(Encode(records[0]), FileOf(records[1..]) + text);
    }
  }

  /** A next record joins the part a failed append left, and the rest of the file is lost from there. */
  lemma PartHidesLaterRecords(records: seq<string>, s: string, cut: nat, later: seq<string>)
    requires 0 < cut <= |Encode(s)| && later != []
    ensures Load(Lines(FileOf(records) + Encode(s)[..cut] + FileOf(later))).latest == Last(records)
  {
    hide Load, Lines, Encode, Decode;
    var line := Encode(s)[..cut] + Encode(later[0]);
    EncodeHasNoNewline(s);
    EncodeHasNoNewline(later[0]);
    PartBeforeRecordUndecodable(s, cut, later[0]);
    LoadStops(records, line, FileOf(later[1..]));
    assert FileOf(records) + Encode(s)[..cut] + FileOf(later) == FileOf(records) + (line + ['\n'] + FileOf(later[1..]));
  }

  /**
   * An append that fails part-way costs every record after it, until a compaction, exactly when it left
   * some but not all of its line: then a restart goes back to the record before it.
   */
  lemma RecordsSurviveFailedAppendIff(steps: seq<Step>, limits: Limits, cut: nat, later: seq<string>)
    requires Run(steps, limits).up && cut <= |Encode(Run(steps, limits).memory)| + 1 && later != []
    ensures var m := Run(steps, limits);
            var before := match Last(m.completed) case None => INITIAL case Some(r) => r;
            var restored := Started(RecordEach(FailedAppend(m, cut), later).(up := false)).memory;
            restored == if 0 < cut <= |Encode(m.memory)| then before else later[|later| - 1]
  {
    hide Encode, Run, Load, Lines, RecordEach, FileOf;
    var m := Run(steps, limits);
    var records, torn := RunKeepsInv(steps, limits);
    RecordEachAppends(FailedAppend(m, cut), later);
    assert m.file == FileOf(records);
    LoadAfterFailedAppend(records, m.memory, cut, later);
  }

  lemma LoadAfterFailedAppend(records: seq<string>, s: string, cut: nat, later: seq<string>)
    requires cut <= |Encode(s)| + 1 && later != []
    ensures Load(Lines(FileOf(records) + (Encode(s) + ['\n'])[..cut] + FileOf(later))).latest ==
            if 0 < cut <= |Encode(s)| then Last(records) else Last(later)
  {
    hide Encode, Load, Lines, FileOf;
    var file := FileOf(records) + (Encode(s) + ['\n'])[..cut] + FileOf(later);
    if cut == 0 {
      CompleteFileLoads(records, later);
      assert file == FileOf(records) + FileOf(later);
    } else if cut == |Encode(s)| + 1 {
      FileOfAppend(records, s);
      CompleteFileLoads(records + [s], later);
      assert (Encode(s) + ['\n'])[..cut] == Encode(s) + ['\n'];
      assert file == FileOf(records + [s]) + FileOf(later);
    } else {
      assert (Encode(s) + ['\n'])[..cut] == Encode(s)[..cut];
      PartHidesLaterRecords(records, s, cut, later);
    }
  }

  lemma CompleteFileLoads(records: seq<string>, later: seq<string>)
    requires later != []
    ensures Load(Lines(FileOf(records) + FileOf(later))).latest == Last(later)
  {
    hide Encode, Load, Lines, FileOf;
    FileOfSum(records, later);
    assert FileOf(records + later) + [] == FileOf(records + later);
    LoadOfFile(records + later, []);
  }

  /** A compaction replaces the whole file, so it restores the present state whatever the file held. */
  lemma CompactionHeals(m: Machine)
    ensures Started(Compacted(m).(up := false)).memory == m.memory
  {
    hide Encode, Load, Lines;
    assert FileOf([m.memory][1..]) == [];
    assert FileOf([m.memory]) + [] == Compacted(m).file;
    LoadOfFile([m.memory], []);
  }

  // ---------------------------------------------------------------------
  // The store object
  // ---------------------------------------------------------------------

  class JsonlMessageStore {
    const limits: Limits
    var file: string
    var state: string
    var recordCount: nat
    ghost var completed: seq<string>

    ghost function View(): Machine
      reads this
    {
      Machine(file, true, state, recordCount, completed)
    }

    /** Opening the store reads the journal and rewrites it when its tail is corrupt. */
    constructor (limits: Limits, file: string, ghost completed: seq<string>)
      ensures this.limits == limits
      ensures View() == Started(Machine(file, false, INITIAL, 0, completed))
    {
      var latest, valid, corrupt := ReadJournal(Lines(file));
      this.limits := limits;
      this.file := if corrupt then Unlines(valid) else file;
      this.state := match latest case None => INITIAL case Some(s) => s;
      this.recordCount := |valid|;
      this.completed := completed;
    }

    /** Line by line: skip blank lines, stop at the first that does not decode. */
    static method ReadJournal(lines: seq<string>) returns (latest: Option<string>, valid: seq<string>, corrupt: bool)
      ensures Loaded(latest, valid, corrupt) == Load(lines)
    {
      latest, valid, corrupt := None, [], false;
      var i := 0;
      assert lines[0..] == lines;
      while i < |lines| && !corrupt
        invariant i <= |lines|
        invariant var rest := if corrupt then Loaded(None, [], true) else Load(lines[i..]);
                  Load(lines) == Loaded(if rest.latest.None? then latest else rest.latest, valid + rest.valid, rest.corrupt)
        decreases |lines| - i
      {
        var stripped := lines[i];
        assert lines[i..][1..] == lines[i + 1..];
        if stripped != [] {
          var record := Decode(stripped);
          if record.None? {
            corrupt := true;
          } else {
            valid := valid + [stripped];
            latest := record;
          }
        }
        i := i + 1;
      }
    }

    method AppendRecordLocked()
      modifies this`file, this`recordCount, this`completed
      ensures View() == Appended(old(View()))
    {
      file := file + Encode(state) + ['\n'];
      recordCount := recordCount + 1;
      completed := completed + [state];
    }

    method MaybeCompactLocked()
      modifies this`file, this`recordCount
      ensures View() == if NeedsCompaction(old(file), old(recordCount), limits) then Compacted(old(View())) else old(View())
    {
      if |file| < limits.maxBytes && recordCount < limits.maxRecords {
        return;
      }
      file := Encode(state) + ['\n'];
      recordCount := 1;
    }

    /** A recorded mutation: change the state, append its snapshot, compact unless the rewrite fails. */
    method Recorded(newState: string, rewriteWorks: bool)
      modifies this
      ensures View() == Next(Next(old(View()), Mutate(newState), limits), Record(rewriteWorks), limits)
    {
      state := newState;
      AppendRecordLocked();
      if rewriteWorks {
        MaybeCompactLocked();
      }
    }
  }
}

/** The log file: many threads in LogFormat, LogMessageWithTime and LogFormatWithTime, while others
    may change the level. Each step is one access to what threads share: the level, the clock or the
    file. A step that writes appends one chunk, the text of one WriteFile. */
module LogFile {
  import opened LogText
  import opened Interleaving
  import Timestamp

  datatype Level = Debug | System | Error | Test | Assert

  function Rank(level: Level): nat {
    match level case Debug => 0 case System => 1 case Error => 2 case Test => 3 case Assert => 4
  }

  /** Which calls a level lets through: Debug all, System all but Debug, Error those of Error, Test and Assert, Test
      those of Test and Assert, Assert only its own. */
  predicate Passes(level: Level, call: Level) {
    match level
    case Debug => true
    case System => call != Debug
    case Error => call == Error || call == Test || call == Assert
    case Test => call == Test || call == Assert
    case Assert => call == Assert
  }

  /** The test of the source, mLogLevel > logLevel, lets through just these. */
  lemma RankDecides(level: Level, call: Level)
    ensures Passes(level, call) <==> !(Rank(level) > Rank(call))
  {
  }

  /** A call with its message already formatted. */
  datatype Call =
    | Format(level: Level, message: string)
    | FormatWithTime(level: Level, message: string)
    | WithTime(level: Level, message: string)
    | WithPlace(level: Level, message: string, fileName: string, line: int)

  /** A call that was logged; `day` is the text of the local time it read, "" if it read none. */
  datatype Record = Record(call: Call, day: string)

  function Spaces(k: nat): (text: string)
    ensures |text| == k && forall i :: 0 <= i < k ==> text[i] == ' '
  {
    seq(k, _ => ' ')
  }

  /** "%4d". */
  function Decimal4(n: int): string {
    var digits := if n < 0 then "-" + Timestamp.Pad(1, -n) else Timestamp.Pad(1, n);
    Spaces(if |digits| < 4 then 4 - |digits| else 0) + digits
  }

  lemma Padded(n: int, digits: string) returns (spaces: nat)
    requires digits == Timestamp.Pad(1, if n < 0 then -n else n) && digits != ""
    ensures spaces < |Decimal4(n)| && Decimal4(n)[spaces..] == (if n < 0 then "-" else "") + digits
    ensures forall i :: 0 <= i < spaces ==> Decimal4(n)[i] == ' '
    ensures |Decimal4(n)| >= 4 && (spaces > 0 ==> |Decimal4(n)| == 4)
  {
    hide Timestamp.Pad;
    var text := if n < 0 then "-" + digits else digits;
    assert text == (if n < 0 then "-" else "") + digits;
    spaces := if |text| < 4 then 4 - |text| else 0;
    assert Decimal4(n) == Spaces(spaces) + text;
    hide Decimal4;
  }

  /** In so many words: the shortest digits of the number behind a minus sign if it is negative, and in front as many
      spaces as make four characters. */
  lemma Decimal4Is(n: int) returns (spaces: nat, digits: string)
    ensures spaces < |Decimal4(n)| && Decimal4(n)[spaces..] == (if n < 0 then "-" else "") + digits
    ensures forall i :: 0 <= i < spaces ==> Decimal4(n)[i] == ' '
    ensures |Decimal4(n)| >= 4 && (spaces > 0 ==> |Decimal4(n)| == 4)
    ensures Timestamp.Value(digits) == if n < 0 then -n else n
    ensures digits != "" && (digits[0] == '0' ==> n == 0 && digits == "0")
    ensures forall i :: 0 <= i < |digits| ==> '0' <= digits[i] <= '9'
  {
    hide Timestamp.Pad, Timestamp.Value, Spaces;
    var m := if n < 0 then -n else n;
    digits := Timestamp.Pad(1, m);
    Timestamp.ValueOfPad(1, m);
    Timestamp.ShortestDigits(m);
    spaces := Padded(n, digits);
  }

  /** What the source promises to append for a record: one text per WriteFile. */
  function Chunks(r: Record): seq<string> {
    match r.call
    case Format(_, m) => [Bounded(LOG_MESSAGE_MAX_LENGTH, m), "\n"]
    case FormatWithTime(_, m) => [Bounded(LOG_MESSAGE_MAX_LENGTH, "[" + r.day + "] : " + m + "\n")]
    case WithTime(_, m) => [Bounded(LOG_MESSAGE_MAX_LENGTH, "[" + r.day + "] : " + m + "\n")]
    case WithPlace(_, m, f, n) =>
      [Bounded(LOG_MESSAGE_MAX_LENGTH, "[" + r.day + "][" + f + " line:" + Decimal4(n) + "] : " + m + "\n")]
  }

  /** Where a thread is. `call` is the call its caller made. */
  datatype Pc =
    | Idle
    | CheckingFormat(call: Call)                // at the level test of LogFormat or LogFormatWithTime
    | CheckingTime(call: Call, message: string) // at that of LogMessageWithTime, called with `message`
    | ReadingClock(call: Call, message: string)
    | Writing(texts: seq<string>, part: nat)    // texts still to write; `part` have been written

  /** A thread with two histories: the calls it made, and the records it has begun to write. */
  datatype Worker = Worker(pc: Pc, asked: seq<Call>, records: seq<Record>)

  /** A text in the file, with the record it belongs to and its place there. */
  datatype Chunk = Chunk(thread: nat, record: nat, part: nat, text: string)

  datatype State = State(level: Level, workers: seq<Worker>, file: seq<Chunk>)

  datatype Action =
    | SetLevel(level: Level)
    | Enter(i: nat, call: Call)
    | Check(i: nat)
    | ReadClock(i: nat, now: Timestamp.Time)
    | Write(i: nat)

  predicate Enabled(s: State, a: Action) {
    match a
    case SetLevel(_) => true
    case Enter(i, _) => i < |s.workers| && s.workers[i].pc.Idle?
    case Check(i) => i < |s.workers| && (s.workers[i].pc.CheckingFormat? || s.workers[i].pc.CheckingTime?)
    case ReadClock(i, now) => i < |s.workers| && s.workers[i].pc.ReadingClock? && Timestamp.Valid(now)
    case Write(i) => i < |s.workers| && s.workers[i].pc.Writing? && s.workers[i].pc.texts != []
  }

  function Apply(s: State, a: Action): State
    requires Enabled(s, a)
  {
    match a
    case SetLevel(level) => s.(level := level)
    case Enter(i, call) => s.(workers := s.workers[i := DoEnter(s.workers[i], call)])
    case Check(i) => s.(workers := s.workers[i := DoCheck(s.workers[i], s.level)])
    case ReadClock(i, now) => s.(workers := s.workers[i := DoReadClock(s.workers[i], Timestamp.TimeText(now))])
    case Write(i) => s.(workers := s.workers[i := DoWrite(s.workers[i])], file := s.file + [NextChunk(i, s.workers[i])])
  }

  function DoEnter(w: Worker, call: Call): Worker {
    var pc := if call.Format? || call.FormatWithTime? then CheckingFormat(call) else CheckingTime(call, call.message);
    w.(pc := pc, asked := w.asked + [call])
  }

  /** A call below the level returns; otherwise LogFormat formats its message, LogFormatWithTime too
      and calls LogMessageWithTime, and LogMessageWithTime goes on to read the time. */
  function DoCheck(w: Worker, level: Level): Worker
    requires w.pc.CheckingFormat? || w.pc.CheckingTime?
  {
    var call := w.pc.call;
    if Rank(level) > Rank(call.level) then w.(pc := Idle)
    else if w.pc.CheckingTime? then w.(pc := ReadingClock(call, w.pc.message))
    else
      var completed := Bounded(LOG_MESSAGE_MAX_LENGTH, call.message);
      if call.FormatWithTime? then w.(pc := CheckingTime(call, completed))
      else w.(pc := Writing([completed, "\n"], 0), records := w.records + [Record(call, "")])
  }

  function DoReadClock(w: Worker, day: string): Worker
    requires w.pc.ReadingClock?
  {
    var prefix :=
      if w.pc.call.WithPlace? then "[" + day + "][" + w.pc.call.fileName + " line:" + Decimal4(w.pc.call.line) + "] : "
      else "[" + day + "] : ";
    w.(pc := Writing([Bounded(LOG_MESSAGE_MAX_LENGTH, prefix + w.pc.message + "\n")], 0),
       records := w.records + [Record(w.pc.call, day)])
  }

  function DoWrite(w: Worker): Worker
    requires w.pc.Writing? && w.pc.texts != []
  {
    w.(pc := if |w.pc.texts| == 1 then Idle else Writing(w.pc.texts[1..], w.pc.part + 1))
  }

  function NextChunk(i: nat, w: Worker): Chunk
    requires w.pc.Writing? && w.pc.texts != []
  {
    Chunk(i, if w.records == [] then 0 else |w.records| - 1, w.pc.part, w.pc.texts[0])
  }

  function Init(n: nat, level: Level): State { State(level, seq(n, _ => Worker(Idle, [], [])), []) }

  ghost predicate Step(s: State, s': State) { exists a :: Enabled(s, a) && s' == Apply(s, a) }

  ghost predicate Run(n: nat, states: seq<State>) {
    && states != []
    && states[0] == Init(n, states[0].level)
    && forall i {:trigger states[i]} :: 0 < i < |states| ==> Step(states[i - 1], states[i])
  }

  // ---- What the file should hold ----

  function RecordChunks(i: nat, n: nat, r: Record): seq<Chunk> {
    seq(|Chunks(r)|, j requires 0 <= j < |Chunks(r)| => Chunk(i, n, j, Chunks(r)[j]))
  }

  /** All chunks of thread i's records, in order. */
  function AllChunks(i: nat, records: seq<Record>): seq<Chunk> {
    if records == [] then [] else
    var n := |records| - 1;
    AllChunks(i, records[..n]) + RecordChunks(i, n, records[n])
  }

  /** Those it has still to write. */
  function Rest(i: nat, w: Worker): seq<Chunk> {
    if w.pc.Writing? && w.records != [] && w.pc.part < |Chunks(w.records[|w.records| - 1])| then
      RecordChunks(i, |w.records| - 1, w.records[|w.records| - 1])[w.pc.part..]
    else []
  }

  /** Thread i's chunks in the file. */
  function By(file: seq<Chunk>, i: nat): seq<Chunk> {
    if file == [] then [] else
    var n := |file| - 1;
    By(file[..n], i) + if file[n].thread == i then [file[n]] else []
  }

  // ---- The invariant of one thread ----

  ghost predicate PcInv(w: Worker) {
    match w.pc
    case Idle => true
    case CheckingFormat(call) => call.Format? || call.FormatWithTime?
    case CheckingTime(call, m) => MessageOf(call, m)
    case ReadingClock(call, m) => MessageOf(call, m)
    case Writing(texts, part) =>
      && w.records != []
      && part < |Chunks(w.records[|w.records| - 1])|
      && texts == Chunks(w.records[|w.records| - 1])[part..]
  }

  predicate MessageOf(call: Call, m: string) {
    !call.Format? && m == if call.FormatWithTime? then Bounded(LOG_MESSAGE_MAX_LENGTH, call.message) else call.message
  }

  ghost predicate WorkerInv(i: nat, w: Worker, written: seq<Chunk>) {
    PcInv(w) && written + Rest(i, w) == AllChunks(i, w.records)
  }

  lemma EnterKeeps(i: nat, w: Worker, written: seq<Chunk>, call: Call)
    requires WorkerInv(i, w, written) && w.pc.Idle?
    ensures WorkerInv(i, DoEnter(w, call), written)
  {
  }

  lemma NewRecord(i: nat, w: Worker, w': Worker, written: seq<Chunk>, r: Record)
    requires WorkerInv(i, w, written) && !w.pc.Writing?
    requires w'.records == w.records + [r] && w'.pc == Writing(Chunks(r), 0)
    ensures WorkerInv(i, w', written)
  {
    assert w'.records[..|w.records|] == w.records;
    assert written == AllChunks(i, w.records);
    assert Rest(i, w') == RecordChunks(i, |w.records|, r);
    assert Chunks(r)[0..] == Chunks(r);
  }

  lemma CheckKeeps(i: nat, w: Worker, written: seq<Chunk>, level: Level)
    requires WorkerInv(i, w, written) && (w.pc.CheckingFormat? || w.pc.CheckingTime?)
    ensures WorkerInv(i, DoCheck(w, level), written)
  {
    var w' := DoCheck(w, level);
    if w'.pc.Writing? {
      NewRecord(i, w, w', written, Record(w.pc.call, ""));
    }
  }

  /** LogFormatWithTime bounds its message twice; the record is as if bounded once. */
  lemma ReadClockText(w: Worker, day: string)
    requires PcInv(w) && w.pc.ReadingClock?
    ensures DoReadClock(w, day).pc == Writing(Chunks(Record(w.pc.call, day)), 0)
  {
    if w.pc.call.FormatWithTime? {
      TwoStageRefinesOne(LOG_MESSAGE_MAX_LENGTH, "[" + day + "] : ", w.pc.call.message, "\n");
    }
  }

  lemma ReadClockKeeps(i: nat, w: Worker, written: seq<Chunk>, day: string)
    requires WorkerInv(i, w, written) && w.pc.ReadingClock?
    ensures WorkerInv(i, DoReadClock(w, day), written)
  {
    ReadClockText(w, day);
    NewRecord(i, w, DoReadClock(w, day), written, Record(w.pc.call, day));
  }

  lemma WriteKeeps(i: nat, w: Worker, written: seq<Chunk>)
    requires WorkerInv(i, w, written) && w.pc.Writing? && w.pc.texts != []
    ensures WorkerInv(i, DoWrite(w), written + [NextChunk(i, w)])
  {
    hide Chunks, AllChunks;
    var r, w' := w.records[|w.records| - 1], DoWrite(w);
    var chunks := RecordChunks(i, |w.records| - 1, r);
    assert chunks[w.pc.part] == NextChunk(i, w);
    assert chunks[w.pc.part..] == [NextChunk(i, w)] + chunks[w.pc.part + 1..];
    assert Rest(i, w) == [NextChunk(i, w)] + Rest(i, w');
  }

  ghost predicate Inv(s: State) {
    && (forall i :: 0 <= i < |s.workers| ==> WorkerInv(i, s.workers[i], By(s.file, i)))
    && (forall j :: 0 <= j < |s.file| ==> s.file[j].thread < |s.workers|)
  }

  lemma ByAppend(file: seq<Chunk>, c: Chunk, i: nat)
    ensures By(file + [c], i) == if c.thread == i then By(file, i) + [c] else By(file, i)
  {
    assert (file + [c])[..|file|] == file;
  }

  lemma StepKeepsInv(s: State, a: Action)
    requires Inv(s) && Enabled(s, a)
    ensures Inv(Apply(s, a)) && |Apply(s, a).workers| == |s.workers|
  {
    hide WorkerInv, DoEnter, DoCheck, DoReadClock, DoWrite, By;
    var s' := Apply(s, a);
    forall i | 0 <= i < |s'.workers|
      ensures WorkerInv(i, s'.workers[i], By(s'.file, i))
    {
      var w := s.workers[i];
      match a
      case SetLevel(_) =>
      case Enter(k, call) => if i == k { EnterKeeps(i, w, By(s.file, i), call); }
      case Check(k) => if i == k { CheckKeeps(i, w, By(s.file, i), s.level); }
      case ReadClock(k, now) => if i == k { ReadClockKeeps(i, w, By(s.file, i), Timestamp.TimeText(now)); }
      case Write(k) =>
        ByAppend(s.file, NextChunk(k, s.workers[k]), i);
        if i == k { WriteKeeps(i, w, By(s.file, i)); }
    }
  }

  lemma PrefixRun(n: nat, states: seq<State>)
    requires Run(n, states) && |states| > 1
    ensures Run(n, states[..|states| - 1]) && Step(states[|states| - 2], states[|states| - 1])
  {
    var before := states[..|states| - 1];
    assert Step(states[|states| - 1 - 1], states[|states| - 1]);
    forall i | 0 < i < |before|
      ensures Step(before[i - 1], before[i])
    {
      assert Step(states[i - 1], states[i]);
    }
  }

  lemma InitInv(n: nat, level: Level)
    ensures Inv(Init(n, level))
  {
  }

  lemma {:induction false} RunKeepsInv(n: nat, states: seq<State>)
    requires Run(n, states)
    ensures Inv(states[|states| - 1]) && |states[|states| - 1].workers| == n
    decreases |states|
  {
    if |states| == 1 {
      InitInv(n, states[0].level);
    } else {
      hide Inv, Apply;
      PrefixRun(n, states);
      RunKeepsInv(n, states[..|states| - 1]);
      hide Run;
      var a :| Enabled(states[|states| - 2], a) && states[|states| - 1] == Apply(states[|states| - 2], a);
      StepKeepsInv(states[|states| - 2], a);
    }
  }

  function Parts(file: seq<Chunk>, n: nat): seq<seq<Chunk>> { seq(n, i requires 0 <= i < n => By(file, i)) }

  lemma {:induction false} FileIsShuffle(file: seq<Chunk>, n: nat)
    requires forall j :: 0 <= j < |file| ==> file[j].thread < n
    ensures Shuffle(Parts(file, n), file)
  {
    if file != [] {
      var k := |file| - 1;
      var before, c := file[..k], file[k];
      assert file == before + [c];
      FileIsShuffle(before, n);
      ShuffleAppend(Parts(before, n), before, c.thread, c);
      var parts, parts' := Parts(before, n), Parts(file, n);
      forall i | 0 <= i < n
        ensures parts'[i] == if c.thread == i then parts[i] + [c] else parts[i]
      {
        ByAppend(before, c, i);
      }
      assert parts' == parts[c.thread := parts[c.thread] + [c]];
    }
  }

  /** The log file is an interleaving of one sequence per thread: the chunks of its records in the
      order of its calls, all of them but those of the record it is in the middle of. */
  lemma LogFileIsInterleaving(n: nat, states: seq<State>)
    requires Run(n, states)
    ensures
      var s := states[|states| - 1];
      && |s.workers| == n && Shuffle(Parts(s.file, n), s.file) && TotalLength(Parts(s.file, n)) == |s.file|
      && forall i :: 0 <= i < n ==>
           By(s.file, i) + Rest(i, s.workers[i]) == AllChunks(i, s.workers[i].records)
  {
    RunKeepsInv(n, states);
    hide Shuffle, PcInv;
    var file := states[|states| - 1].file;
    FileIsShuffle(file, n);
    ShuffleLength(Parts(file, n), file);
  }

  // ---- Which records can be split ----

  /** The order in which one thread writes. */
  predicate Before(c: Chunk, record: nat, part: nat) {
    c.record < record || (c.record == record && c.part < part)
  }

  /** A chunk in the file is the chunk of a record of its thread, and the thread is past it. */
  ghost predicate Placed(c: Chunk, w: Worker) {
    && c.record < |w.records| && c.part < |Chunks(w.records[c.record])| && c.text == Chunks(w.records[c.record])[c.part]
    && (w.pc.Writing? ==> Before(c, |w.records| - 1, w.pc.part))
  }

  ghost predicate OrderInv(s: State) {
    && (forall j :: 0 <= j < |s.file| ==>
        s.file[j].thread < |s.workers| && Placed(s.file[j], s.workers[s.file[j].thread]))
    && InOrder(s.file)
  }

  /** The chunks of each thread are in the order in which it writes them. */
  predicate InOrder(file: seq<Chunk>) {
    forall j, k :: 0 <= j < k < |file| && file[j].thread == file[k].thread ==>
      Before(file[j], file[k].record, file[k].part)
  }

  /** A worker's step leaves its chunks placed. */
  lemma WorkerKeepsPlaced(s: State, a: Action, c: Chunk)
    requires Enabled(s, a) && c.thread < |s.workers| && PcInv(s.workers[c.thread]) && Placed(c, s.workers[c.thread])
    ensures Placed(c, Apply(s, a).workers[c.thread])
  {
    hide Chunks, Decimal4;
  }

  lemma NextIsPlaced(i: nat, w: Worker)
    requires PcInv(w) && w.pc.Writing? && w.pc.texts != []
    ensures Placed(NextChunk(i, w), DoWrite(w))
  {
  }

  lemma StepKeepsOrder(s: State, a: Action)
    requires Inv(s) && OrderInv(s) && Enabled(s, a)
    ensures OrderInv(Apply(s, a))
  {
    hide PcInv, Placed, Apply, Before;
    StepKeepsPlaced(s, a);
    SameWorkers(s, a);
    if a.Write? {
      var chunk := NextChunk(a.i, s.workers[a.i]);
      hide InOrder, NextChunk;
      forall j | 0 <= j < |s.file| && s.file[j].thread == a.i
        ensures Before(s.file[j], chunk.record, chunk.part)
      {
        PlacedBefore(s.file[j], a.i, s.workers[a.i]);
      }
      AppendInOrder(s.file, chunk);
    }
  }

  lemma AppendInOrder(file: seq<Chunk>, chunk: Chunk)
    requires InOrder(file)
    requires forall j :: 0 <= j < |file| && file[j].thread == chunk.thread ==> Before(file[j], chunk.record, chunk.part)
    ensures InOrder(file + [chunk])
  {
    hide Before;
  }

  lemma StepKeepsPlaced(s: State, a: Action)
    requires Inv(s) && OrderInv(s) && Enabled(s, a)
    ensures
      var s' := Apply(s, a);
      forall j :: 0 <= j < |s'.file| ==>
        s'.file[j].thread < |s'.workers| && Placed(s'.file[j], s'.workers[s'.file[j].thread])
  {
    hide PcInv, Placed, Apply, Before;
    var s' := Apply(s, a);
    SameWorkers(s, a);
    forall j | 0 <= j < |s.file|
      ensures Placed(s.file[j], s'.workers[s.file[j].thread])
    {
      WorkerKeepsPlaced(s, a, s.file[j]);
    }
    if a.Write? {
      NextIsPlaced(a.i, s.workers[a.i]);
    }
  }

  lemma SameWorkers(s: State, a: Action)
    requires Enabled(s, a)
    ensures |Apply(s, a).workers| == |s.workers|
    ensures a.Write? ==>
      && Apply(s, a).file == s.file + [NextChunk(a.i, s.workers[a.i])]
      && Apply(s, a).workers[a.i] == DoWrite(s.workers[a.i])
    ensures !a.Write? ==> Apply(s, a).file == s.file
  {
    hide DoEnter, DoCheck, DoReadClock, DoWrite, NextChunk;
  }

  lemma PlacedBefore(c: Chunk, i: nat, w: Worker)
    requires Placed(c, w) && w.pc.Writing? && w.pc.texts != []
    ensures NextChunk(i, w).thread == i && Before(c, NextChunk(i, w).record, NextChunk(i, w).part)
  {
    hide Chunks;
  }

  lemma {:induction false} RunKeepsOrder(n: nat, states: seq<State>)
    requires Run(n, states)
    ensures OrderInv(states[|states| - 1])
    decreases |states|
  {
    if |states| > 1 {
      PrefixRun(n, states);
      RunKeepsInv(n, states[..|states| - 1]);
      RunKeepsOrder(n, states[..|states| - 1]);
      hide Inv, OrderInv, Run;
      var a :| Enabled(states[|states| - 2], a) && states[|states| - 1] == Apply(states[|states| - 2], a);
      StepKeepsOrder(states[|states| - 2], a);
    }
  }

  /** Only LogFormat's records can be split, only between message and newline, and only by other
      threads. */
  lemma OnlyFormatSplits(n: nat, states: seq<State>, j: nat, k: nat)
    requires Run(n, states)
    requires
      var file := states[|states| - 1].file;
      j < k < |file| && file[j].thread == file[k].thread && file[j].record == file[k].record
    ensures
      var s := states[|states| - 1];
      var c, d := s.file[j], s.file[k];
      && c.thread < |s.workers| && c.record < |s.workers[c.thread].records|
      && s.workers[c.thread].records[c.record].call.Format?
      && c.text == Bounded(LOG_MESSAGE_MAX_LENGTH, s.workers[c.thread].records[c.record].call.message) && d.text == "\n"
      && forall l :: j < l < k ==> s.file[l].thread != c.thread
  {
    RunKeepsOrder(n, states);
  }

  /** And two LogFormat calls really can be mixed: message, message, newline, newline. */
  lemma FormatCanSplit(m0: string, m1: string) returns (states: seq<State>)
    ensures Run(2, states)
    ensures var file := states[|states| - 1].file;
      |file| == 4 && file[0].thread == file[2].thread == 0 && file[1].thread == file[3].thread == 1
      && [file[0].text, file[1].text, file[2].text, file[3].text]
         == [Bounded(LOG_MESSAGE_MAX_LENGTH, m0), Bounded(LOG_MESSAGE_MAX_LENGTH, m1), "\n", "\n"]
  {
    hide Chunks, Decimal4, Bounded;
    states := [Init(2, Debug)];
    states := Extend(2, states, Enter(0, Format(Debug, m0)));
    states := Extend(2, states, Enter(1, Format(Debug, m1)));
    states := Extend(2, states, Check(0));
    states := Extend(2, states, Check(1));
    states := Extend(2, states, Write(0));
    states := Extend(2, states, Write(1));
    states := Extend(2, states, Write(0));
    states := Extend(2, states, Write(1));
  }

  lemma Extend(n: nat, states: seq<State>, a: Action) returns (longer: seq<State>)
    requires Run(n, states) && Enabled(states[|states| - 1], a)
    ensures Run(n, longer) && longer[|longer| - 1] == Apply(states[|states| - 1], a)
  {
    longer := states + [Apply(states[|states| - 1], a)];
    forall i | 0 < i < |longer|
      ensures Step(longer[i - 1], longer[i])
    {
      if i < |states| {
        assert Step(states[i - 1], states[i]);
      }
    }
  }

  // ---- The level ----

  /** The calls of at least the given rank. */
  function Kept(calls: seq<Call>, rank: nat): seq<Call> {
    if calls == [] then [] else
    var n := |calls| - 1;
    Kept(calls[..n], rank) + if Rank(calls[n].level) >= rank then [calls[n]] else []
  }

  function CallsOf(records: seq<Record>): seq<Call> {
    seq(|records|, k requires 0 <= k < |records| => records[k].call)
  }

  /** The call a thread may yet log. */
  function Undecided(pc: Pc): seq<Call> {
    if pc.CheckingFormat? || pc.CheckingTime? || pc.ReadingClock? then [pc.call] else []
  }

  /** The calls that a level lets through. */
  function Passing(calls: seq<Call>, level: Level): seq<Call> {
    if calls == [] then [] else
    var n := |calls| - 1;
    Passing(calls[..n], level) + if Passes(level, calls[n].level) then [calls[n]] else []
  }

  lemma {:induction false} PassingIsKept(calls: seq<Call>, level: Level)
    ensures Passing(calls, level) == Kept(calls, Rank(level))
  {
    if calls != [] {
      PassingIsKept(calls[..|calls| - 1], level);
      RankDecides(level, calls[|calls| - 1].level);
    }
  }

  lemma KeptAppend(calls: seq<Call>, call: Call, rank: nat)
    ensures Kept(calls + [call], rank) == Kept(calls, rank) + if Rank(call.level) >= rank then [call] else []
  {
    assert (calls + [call])[..|calls|] == calls;
  }

  ghost predicate LevelInv(w: Worker, lo: nat, hi: nat) {
    && (w.pc.ReadingClock? ==> Rank(w.pc.call.level) >= lo)
    && (forall k :: 0 <= k < |w.records| ==> Rank(w.records[k].call.level) >= lo)
    && Kept(CallsOf(w.records) + Undecided(w.pc), hi) == Kept(w.asked, hi)
  }

  lemma EnterLevels(w: Worker, call: Call, lo: nat, hi: nat)
    requires LevelInv(w, lo, hi) && w.pc.Idle?
    ensures LevelInv(DoEnter(w, call), lo, hi)
  {
    KeptAppend(w.asked, call, hi);
    KeptAppend(CallsOf(w.records), call, hi);
    assert CallsOf(w.records) + Undecided(w.pc) == CallsOf(w.records);
  }

  lemma CheckLevels(w: Worker, level: Level, lo: nat, hi: nat)
    requires LevelInv(w, lo, hi) && (w.pc.CheckingFormat? || w.pc.CheckingTime?) && lo <= Rank(level) <= hi
    ensures LevelInv(DoCheck(w, level), lo, hi)
  {
    var w' := DoCheck(w, level);
    KeptAppend(CallsOf(w.records), w.pc.call, hi);
    assert CallsOf(w.records) + [] == CallsOf(w.records);
    if w'.pc.Writing? {
      assert CallsOf(w'.records) + Undecided(w'.pc) == CallsOf(w.records) + [w.pc.call];
    }
  }

  lemma ReadClockLevels(w: Worker, day: string, lo: nat, hi: nat)
    requires LevelInv(w, lo, hi) && w.pc.ReadingClock?
    ensures LevelInv(DoReadClock(w, day), lo, hi)
  {
    var w' := DoReadClock(w, day);
    assert CallsOf(w'.records) + Undecided(w'.pc) == CallsOf(w.records) + [w.pc.call];
  }

  lemma WriteLevels(w: Worker, lo: nat, hi: nat)
    requires LevelInv(w, lo, hi) && w.pc.Writing? && w.pc.texts != []
    ensures LevelInv(DoWrite(w), lo, hi)
  {
  }

  lemma StepKeepsLevels(s: State, a: Action, i: nat, lo: nat, hi: nat)
    requires Enabled(s, a) && i < |s.workers| && LevelInv(s.workers[i], lo, hi) && lo <= Rank(s.level) <= hi
    ensures i < |Apply(s, a).workers| && LevelInv(Apply(s, a).workers[i], lo, hi)
  {
    hide LevelInv, DoEnter, DoCheck, DoReadClock, DoWrite, NextChunk;
    var w := s.workers[i];
    match a
    case SetLevel(_) =>
    case Enter(k, call) => if i == k { EnterLevels(w, call, lo, hi); }
    case Check(k) => if i == k { CheckLevels(w, s.level, lo, hi); }
    case ReadClock(k, now) => if i == k { ReadClockLevels(w, Timestamp.TimeText(now), lo, hi); }
    case Write(k) => if i == k { WriteLevels(w, lo, hi); }
  }

  /** While the level stays between two bounds, no call of the upper one or above is lost or moved,
      and no call below the lower one is logged. */
  lemma {:induction false} LevelsBoundTheLog(n: nat, states: seq<State>, i: nat, lo: nat, hi: nat)
    requires Run(n, states) && i < n
    requires forall k :: 0 <= k < |states| ==> lo <= Rank(states[k].level) <= hi
    ensures i < |states[|states| - 1].workers| && LevelInv(states[|states| - 1].workers[i], lo, hi)
    decreases |states|
  {
    if |states| > 1 {
      PrefixRun(n, states);
      LevelsBoundTheLog(n, states[..|states| - 1], i, lo, hi);
      hide Run, LevelInv;
      var a :| Enabled(states[|states| - 2], a) && states[|states| - 1] == Apply(states[|states| - 2], a);
      StepKeepsLevels(states[|states| - 2], a, i, lo, hi);
    }
  }

  lemma {:induction false} AllKept(calls: seq<Call>, rank: nat)
    requires forall k :: 0 <= k < |calls| ==> Rank(calls[k].level) >= rank
    ensures Kept(calls, rank) == calls
  {
    if calls != [] {
      var n := |calls| - 1;
      AllKept(calls[..n], rank);
      assert calls == calls[..n] + [calls[n]];
    }
  }

  /** With a level that does not change, an idle thread has logged exactly its calls of at least that
      level, and the file holds of it exactly their chunks, in order. */
  lemma ConstantLevel(n: nat, states: seq<State>, i: nat)
    requires Run(n, states) && i < n
    requires forall k :: 0 <= k < |states| ==> states[k].level == states[0].level
    ensures
      var s := states[|states| - 1];
      && i < |s.workers|
      && (s.workers[i].pc.Idle? ==>
            && CallsOf(s.workers[i].records) == Passing(s.workers[i].asked, states[0].level)
            && By(s.file, i) == AllChunks(i, s.workers[i].records))
  {
    var rank := Rank(states[0].level);
    LevelsBoundTheLog(n, states, i, rank, rank);
    LogFileIsInterleaving(n, states);
    var w := states[|states| - 1].workers[i];
    if w.pc.Idle? {
      assert CallsOf(w.records) + Undecided(w.pc) == CallsOf(w.records);
      AllKept(CallsOf(w.records), rank);
      PassingIsKept(w.asked, states[0].level);
    }
  }
}

/** The Logger class as a program: its fields, the buffers it fills in place, and its methods run one
    at a time. LogFile and the AsyncLog modules say what happens when they run together. */
module LoggerProgram {
  import opened LogText
  import LogFile
  import Timestamp

  /** The text in a buffer: what precedes the first terminator. */
  function TextIn(chars: seq<char>): string {
    if chars == [] || chars[0] == '\0' then "" else [chars[0]] + TextIn(chars[1..])
  }

  lemma {:induction false} TextInIs(chars: seq<char>, k: nat)
    requires k <= |chars| && (k == |chars| || chars[k] == '\0')
    requires forall i :: 0 <= i < k ==> chars[i] != '\0'
    ensures TextIn(chars) == chars[..k]
  {
    if k > 0 {
      TextInIs(chars[1..], k - 1);
      assert chars[..k] == [chars[0]] + chars[1..][..k - 1];
    }
  }

  lemma {:induction false} TextInShape(chars: seq<char>)
    ensures TextIn(chars) <= chars && '\0' !in TextIn(chars)
    ensures |TextIn(chars)| < |chars| ==> chars[|TextIn(chars)|] == '\0'
    ensures '\0' in chars ==> |TextIn(chars)| < |chars|
  {
    if chars != [] && chars[0] != '\0' {
      TextInShape(chars[1..]);
      assert chars == [chars[0]] + chars[1..];
    }
  }

  /** Bounding a text that holds a terminator, and reading it back, is bounding what precedes it. */
  lemma TextInBounded(n: nat, text: string)
    requires n >= 1
    ensures TextIn(Bounded(n, text) + ['\0']) == Bounded(n, TextIn(text))
  {
    TextInShape(text);
    var k := |Bounded(n, TextIn(text))|;
    TextInIs(Bounded(n, text) + ['\0'], k);
  }

  /** StringCchPrintfW with `text` as what the format and its arguments stand for. */
  method StringCchPrintf(buffer: array<char>, text: string)
    requires buffer.Length >= 1
    modifies buffer
    ensures '\0' in buffer[..]
    ensures TextIn(buffer[..]) == Bounded(buffer.Length, TextIn(text))
  {
    var cut := Bounded(buffer.Length, text);
    forall i | 0 <= i < |cut| {
      buffer[i] := cut[i];
    }
    buffer[|cut|] := '\0';
    assert buffer[..] == (cut + ['\0']) + buffer[|cut| + 1..];
    SameText(cut + ['\0'], buffer[|cut| + 1..]);
    TextInBounded(buffer.Length, text);
  }

  /** Nothing after a terminator matters. */
  lemma SameText(chars: seq<char>, more: seq<char>)
    requires '\0' in chars
    ensures TextIn(chars + more) == TextIn(chars)
  {
    TextInShape(chars);
    TextInIs(chars + more, |TextIn(chars)|);
  }

  lemma TextInText(text: string)
    requires '\0' !in text
    ensures TextIn(text) == text
  {
    TextInIs(text, |text|);
  }

  /** wcslen. */
  method Wcslen(text: array<char>) returns (n: nat)
    requires '\0' in text[..]
    ensures n < text.Length && text[..n] == TextIn(text[..])
  {
    n := 0;
    TextInShape(text[..]);
    while text[n] != '\0'
      invariant n <= |TextIn(text[..])|
      invariant forall i :: 0 <= i < n ==> text[i] != '\0'
      decreases text.Length - n
    {
      n := n + 1;
    }
    TextInIs(text[..], n);
  }

  lemma {:induction false} PadPlain(w: nat, n: nat)
    ensures '\0' !in Timestamp.Pad(w, n)
    decreases w + n
  {
    if w > 0 || n > 0 {
      PadPlain(if w == 0 then 0 else w - 1, n / 10);
    }
  }

  lemma FullTextPlain(now: Timestamp.Time)
    ensures '\0' !in Timestamp.FullText(now)
  {
    PadPlain(4, now.year);
    PadPlain(2, now.month);
    PadPlain(2, now.day);
    PadPlain(2, now.hour);
    PadPlain(2, now.minute);
    PadPlain(2, now.second);
    hide Timestamp.Pad;
  }

  lemma DecimalPlain(n: int)
    ensures '\0' !in LogFile.Decimal4(n)
  {
    PadPlain(1, if n < 0 then -n else n);
    hide Timestamp.Pad;
  }

  lemma PlacePlain(day: string, name: string, line: int, text: string)
    requires '\0' !in day && '\0' !in name && '\0' !in text
    ensures
      var decorated := "[" + day + "][" + name + " line:" + LogFile.Decimal4(line) + "] : " + text + "\n";
      TextIn(decorated) == decorated
  {
    DecimalPlain(line);
    hide LogFile.Decimal4;
    TextInText("[" + day + "][" + name + " line:" + LogFile.Decimal4(line) + "] : " + text + "\n");
  }

  /** The static members of Logger. A file is the sequence of the texts given to WriteFile. */
  class Logger {
    var logFile: seq<string>
    var monitorFile: seq<string>
    var level: LogFile.Level
    var queue: seq<array<char>>     // mAsyncLogQueue, oldest first
    var event: bool                 // mAsyncLogEvent
    ghost var live: set<array<char>>  // buffers allocated by `new` and not yet deleted

    /** Every live buffer is in the queue exactly once, and holds a text. */
    ghost predicate Valid()
      reads this, queue
    {
      && (forall i :: 0 <= i < |queue| ==> '\0' in queue[i][..])
      && (forall i, j :: 0 <= i < j < |queue| ==> queue[i] != queue[j])
      && live == set b | b in queue
    }

    /** The records waiting to be written. */
    ghost function Waiting(): (texts: seq<string>)
      reads this, queue
    {
      Texts(queue)
    }

    static ghost function Texts(buffers: seq<array<char>>): (texts: seq<string>)
      reads buffers
      ensures |texts| == |buffers|
    {
      seq(|buffers|, i requires 0 <= i < |buffers| reads buffers => TextIn(buffers[i][..]))
    }

    constructor ()
      ensures Valid() && logFile == [] && monitorFile == [] && queue == [] && !event && level == LogFile.Debug
    {
      logFile, monitorFile, level, queue, event, live := [], [], LogFile.Debug, [], false, {};
    }

    method WriteToLogFile(log: array<char>)
      requires '\0' in log[..]
      modifies this`logFile
      ensures logFile == old(logFile) + [TextIn(log[..])]
    {
      var n := Wcslen(log);
      logFile := logFile + [log[..n]];
    }

    method WriteToMonitorFile(log: array<char>)
      requires '\0' in log[..]
      modifies this`monitorFile
      ensures monitorFile == old(monitorFile) + [TextIn(log[..])]
    {
      var n := Wcslen(log);
      monitorFile := monitorFile + [log[..n]];
    }

    /** `message` is what the caller's format and arguments stand for. */
    method LogMonitor(message: string)
      modifies this`monitorFile
      ensures monitorFile == old(monitorFile) + [MonitorRecord(TextIn(message))]
    {
      var log := new char[LOG_MESSAGE_MAX_LENGTH];
      FormatMonitorRecord(log, message);
      WriteToMonitorFile(log);
    }

    /** The two formatting stages LogMonitor and LogMonitorAsync share. */
    static method FormatMonitorRecord(log: array<char>, message: string)
      requires log.Length == LOG_MESSAGE_MAX_LENGTH
      modifies log
      ensures '\0' in log[..] && TextIn(log[..]) == MonitorRecord(TextIn(message))
    {
      var completedMessage := new char[LOG_MESSAGE_MAX_LENGTH];
      StringCchPrintf(completedMessage, message);
      TextInShape(completedMessage[..]);
      var n := Wcslen(completedMessage);
      var text := completedMessage[..n] + "\n";
      TextInText(text);
      StringCchPrintf(log, text);
      assert text == "" + Bounded(LOG_MESSAGE_MAX_LENGTH, TextIn(message)) + "\n";
    }

    /** Queues the record in a new buffer, then signals. */
    method LogMonitorAsync(message: string) returns (log: array<char>)
      requires Valid()
      modifies this`queue, this`event, this`live
      ensures Valid() && event && fresh(log)
      ensures queue == old(queue) + [log] && Waiting() == old(Waiting()) + [MonitorRecord(TextIn(message))]
    {
      log := new char[LOG_MESSAGE_MAX_LENGTH];
      live := live + {log};
      FormatMonitorRecord(log, message);
      queue := queue + [log];
      event := true;
    }

    /** asyncLogThread from one return of its wait to the next wait, with no call in between: the event
        is reset, every waiting record is written, in order, and every buffer deleted. */
    method AsyncLogRound()
      requires Valid() && event
      modifies this`monitorFile, this`queue, this`event, this`live
      ensures Valid() && !event && queue == [] && live == {}
      ensures monitorFile == old(monitorFile) + old(Waiting())
    {
      hide TextIn;
      event := false;
      ghost var waiting := Waiting();
      ghost var written := 0;
      while queue != []
        invariant Valid() && !event
        invariant written <= |waiting| && Waiting() == waiting[written..]
        invariant monitorFile == old(monitorFile) + waiting[..written]
        decreases |queue|
      {
        WriteFirst();
        written := written + 1;
      }
    }

    /** TryDequeue, the write and the delete. */
    method WriteFirst()
      requires Valid() && queue != []
      modifies this`monitorFile, this`queue, this`live
      ensures Valid() && queue == old(queue[1..]) && Waiting() == old(Waiting())[1..]
      ensures monitorFile == old(monitorFile) + [old(Waiting())[0]]
    {
      hide TextIn;
      var log := queue[0];
      assert TextIn(log[..]) == Waiting()[0];
      queue := queue[1..];
      WriteToMonitorFile(log);
      live := live - {log};
    }

    static method GetCurrentTimeInfo(dayInfo: array<char>, now: Timestamp.Time)
      requires dayInfo.Length == DAY_INFO_BUFFER_LENGTH
      modifies dayInfo
      ensures '\0' in dayInfo[..] && TextIn(dayInfo[..]) == Timestamp.TimeText(now)
    {
      FullTextPlain(now);
      TextInText(Timestamp.FullText(now));
      StringCchPrintf(dayInfo, Timestamp.FullText(now));
    }

    /** The time goes to the monitor file, as the record of the message "<time>". */
    method LogCurrentTime(now: Timestamp.Time)
      modifies this`monitorFile
      ensures monitorFile == old(monitorFile) + [MonitorRecord("<" + Timestamp.TimeText(now) + ">")]
    {
      var dayInfo := new char[DAY_INFO_BUFFER_LENGTH];
      GetCurrentTimeInfo(dayInfo, now);
      TextInShape(dayInfo[..]);
      var day := ReadText(dayInfo);
      var log := new char[LOG_MESSAGE_MAX_LENGTH];
      TextInText("<" + day + ">\n");
      StringCchPrintf(log, "<" + day + ">\n");
      WriteToMonitorFile(log);
      assert "<" + day + ">\n" == "" + ("<" + day + ">") + "\n";
      TwoStageRefinesOne(LOG_MESSAGE_MAX_LENGTH, "", "<" + day + ">", "\n");
    }

    /** A "%s" argument. */
    static method ReadText(buffer: array<char>) returns (text: string)
      requires '\0' in buffer[..]
      ensures text == TextIn(buffer[..]) && '\0' !in text
    {
      var n := Wcslen(buffer);
      text := buffer[..n];
      TextInShape(buffer[..]);
    }

    /** What a call adds to the log file at a given level and time. */
    ghost function Logged(call: LogFile.Call, day: string): (texts: seq<string>)
      reads this
    {
      if LogFile.Passes(level, call.level) then LogFile.Chunks(LogFile.Record(call, day)) else []
    }

    method LogMessageWithTime(logLevel: LogFile.Level, message: array<char>, now: Timestamp.Time)
      requires '\0' in message[..]
      modifies this`logFile
      ensures logFile == old(logFile) + Logged(LogFile.WithTime(logLevel, TextIn(message[..])), Timestamp.TimeText(now))
    {
      LogFile.RankDecides(level, logLevel);
      if LogFile.Rank(level) > LogFile.Rank(logLevel) {
        return;
      }
      var log, dayInfo := new char[LOG_MESSAGE_MAX_LENGTH], new char[DAY_INFO_BUFFER_LENGTH];
      GetCurrentTimeInfo(dayInfo, now);
      var day := ReadText(dayInfo);
      var text := ReadText(message);
      TextInText("[" + day + "] : " + text + "\n");
      StringCchPrintf(log, "[" + day + "] : " + text + "\n");
      WriteToLogFile(log);
    }

    method LogMessageWithPlace(logLevel: LogFile.Level, message: array<char>, fileName: array<char>, line: int,
                               now: Timestamp.Time)
      requires '\0' in message[..] && '\0' in fileName[..]
      modifies this`logFile
      ensures logFile == old(logFile) +
        Logged(LogFile.WithPlace(logLevel, TextIn(message[..]), TextIn(fileName[..]), line), Timestamp.TimeText(now))
    {
      LogFile.RankDecides(level, logLevel);
      if LogFile.Rank(level) > LogFile.Rank(logLevel) {
        return;
      }
      var log, dayInfo := new char[LOG_MESSAGE_MAX_LENGTH], new char[DAY_INFO_BUFFER_LENGTH];
      GetCurrentTimeInfo(dayInfo, now);
      var day := ReadText(dayInfo);
      var text := ReadText(message);
      var name := ReadText(fileName);
      PlacePlain(day, name, line, text);
      hide LogFile.Decimal4, TextIn;
      StringCchPrintf(log, "[" + day + "][" + name + " line:" + LogFile.Decimal4(line) + "] : " + text + "\n");
      WriteToLogFile(log);
    }

    method LogFormat(logLevel: LogFile.Level, message: string)
      modifies this`logFile
      ensures logFile == old(logFile) + Logged(LogFile.Format(logLevel, TextIn(message)), "")
    {
      LogFile.RankDecides(level, logLevel);
      if LogFile.Rank(level) > LogFile.Rank(logLevel) {
        return;
      }
      var completedMessage, newline := new char[LOG_MESSAGE_MAX_LENGTH], new char[] ['\n', '\0'];
      StringCchPrintf(completedMessage, message);
      WriteToLogFile(completedMessage);
      assert newline[1] == '\0';
      TextInIs(newline[..], 1);
      assert newline[..][..1] == "\n";
      WriteToLogFile(newline);
    }

    method LogFormatWithTime(logLevel: LogFile.Level, message: string, now: Timestamp.Time)
      modifies this`logFile
      ensures logFile == old(logFile) + Logged(LogFile.FormatWithTime(logLevel, TextIn(message)),
        Timestamp.TimeText(now))
    {
      LogFile.RankDecides(level, logLevel);
      if LogFile.Rank(level) > LogFile.Rank(logLevel) {
        return;
      }
      var completedMessage := new char[LOG_MESSAGE_MAX_LENGTH];
      StringCchPrintf(completedMessage, message);
      LogMessageWithTime(logLevel, completedMessage, now);
      TwoStageRefinesOne(LOG_MESSAGE_MAX_LENGTH, "[" + Timestamp.TimeText(now) + "] : ", TextIn(message), "\n");
    }
  }
}

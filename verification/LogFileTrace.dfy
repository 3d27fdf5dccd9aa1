/** What the log file holds, said of the actions of the run: the calls the threads make, the level as it is set, and
    the times that are read. */
module LogFileTrace {
  import opened LogFile
  import opened LogText

  /** A run with its actions: action i leads from state i to the next. */
  ghost predicate Trace(n: nat, states: seq<State>, actions: seq<Action>) {
    && |states| == |actions| + 1 && states[0] == Init(n, states[0].level)
    && forall i :: 0 <= i < |actions| ==>
         Enabled(states[i], actions[i]) && states[i + 1] == Apply(states[i], actions[i])
  }

  lemma ShorterTrace(n: nat, states: seq<State>, actions: seq<Action>, k: nat)
    requires Trace(n, states, actions) && k <= |actions|
    ensures Trace(n, states[..k + 1], actions[..k])
  {
  }

  // ---- What the actions ask for ----

  /** The level after the actions. */
  function LevelAfter(actions: seq<Action>, first: Level): Level {
    if actions == [] then first else
    var n := |actions| - 1;
    if actions[n].SetLevel? then actions[n].level else LevelAfter(actions[..n], first)
  }

  /** The calls of thread i. */
  function CallsBy(actions: seq<Action>, i: nat): seq<Call> {
    if actions == [] then [] else
    var n := |actions| - 1;
    CallsBy(actions[..n], i) + if actions[n].Enter? && actions[n].i == i then [actions[n].call] else []
  }

  /** A text in a buffer of 512 characters. */
  function Cut(text: string): string { if |text| <= 511 then text else text[..511] }

  /** The text of a call that reads the time. */
  function Decorated(call: Call, now: Timestamp.Time): string {
    var place := if call.WithPlace? then "[" + call.fileName + " line:" + Decimal4(call.line) + "]" else "";
    Cut("[" + Timestamp.TimeText(now) + "]" + place + " : " + call.message + "\n")
  }

  /** The texts that an action is to add to the file: the test of a LogFormat call that passes it, the message and a
      newline; reading the time, the text with it. */
  function Added(a: Action, i: nat, calls: seq<Call>, level: Level): seq<string> {
    if calls == [] then [] else
    var call := calls[|calls| - 1];
    match a
    case Check(k) => if k == i && call.Format? && Passes(level, call.level) then [Cut(call.message), "\n"] else []
    case ReadClock(k, now) => if k == i then [Decorated(call, now)] else []
    case _ => []
  }

  /** What thread i's texts in the file are to be. */
  function Expected(actions: seq<Action>, i: nat, first: Level): seq<string> {
    if actions == [] then [] else
    var n := |actions| - 1;
    Expected(actions[..n], i, first) + Added(actions[n], i, CallsBy(actions[..n], i), LevelAfter(actions[..n], first))
  }

  /** A chunk's place does not matter here. */
  function TextsBy(file: seq<Chunk>, i: nat): seq<string> {
    if file == [] then [] else
    var n := |file| - 1;
    TextsBy(file[..n], i) + if file[n].thread == i then [file[n].text] else []
  }

  // ---- One thread ----

  /** The thread is busy with the last of its calls, and has written what it was to write but for what is left. */
  ghost predicate Follows(w: Worker, written: seq<string>, calls: seq<Call>, expected: seq<string>) {
    && w.asked == calls && PcInv(w)
    && (w.pc.CheckingFormat? || w.pc.CheckingTime? || w.pc.ReadingClock? ==>
          calls != [] && w.pc.call == calls[|calls| - 1])
    && (w.pc.CheckingTime? || w.pc.ReadingClock? ==> !w.pc.call.Format?)
    && written + (if w.pc.Writing? then w.pc.texts else []) == expected
  }

  lemma CutIsBounded(text: string)
    ensures Bounded(LOG_MESSAGE_MAX_LENGTH, text) == Cut(text)
  {
  }

  /** The texts of a record, in so many words. */
  lemma ChunksAre(call: Call, now: Timestamp.Time)
    ensures call.Format? ==> Chunks(Record(call, "")) == [Cut(call.message), "\n"]
    ensures !call.Format? ==> Chunks(Record(call, Timestamp.TimeText(now))) == [Decorated(call, now)]
  {
    hide Decimal4, Timestamp.TimeText;
    var day := Timestamp.TimeText(now);
    if call.WithPlace? {
      assert "[" + day + "][" + call.fileName + " line:" + Decimal4(call.line) + "] : " + call.message + "\n"
          == "[" + day + "]" + ("[" + call.fileName + " line:" + Decimal4(call.line) + "]") + " : " + call.message
             + "\n";
    } else {
      assert "[" + day + "] : " + call.message + "\n" == "[" + day + "]" + "" + " : " + call.message + "\n";
    }
  }

  lemma EnterFollows(w: Worker, written: seq<string>, calls: seq<Call>, expected: seq<string>, call: Call)
    requires Follows(w, written, calls, expected) && w.pc.Idle?
    ensures Follows(DoEnter(w, call), written, calls + [call], expected)
  {
  }

  lemma CheckFollows(w: Worker, written: seq<string>, calls: seq<Call>, expected: seq<string>, level: Level)
    requires Follows(w, written, calls, expected) && (w.pc.CheckingFormat? || w.pc.CheckingTime?)
    ensures calls != []
    ensures
      var call := calls[|calls| - 1];
      Follows(DoCheck(w, level), written, calls,
              expected + if call.Format? && Passes(level, call.level) then [Cut(call.message), "\n"] else [])
  {
    var call := calls[|calls| - 1];
    RankDecides(level, call.level);
    if call.Format? {
      assert w.pc.CheckingFormat?;
      ChunksAre(call, Timestamp.Time(0, 0, 0, 0, 0, 0));
      CutIsBounded(call.message);
      hide Decimal4;
    } else {
      hide Chunks;
    }
  }

  lemma ReadClockFollows(w: Worker, written: seq<string>, calls: seq<Call>, expected: seq<string>, now: Timestamp.Time)
    requires Follows(w, written, calls, expected) && w.pc.ReadingClock?
    ensures calls != []
    ensures
      var call := calls[|calls| - 1];
      Follows(DoReadClock(w, Timestamp.TimeText(now)), written, calls, expected + [Decorated(call, now)])
  {
    var call, day := calls[|calls| - 1], Timestamp.TimeText(now);
    ReadClockText(w, day);
    ChunksAre(call, now);
    hide Chunks, Timestamp.TimeText, Decorated;
    var w' := DoReadClock(w, day);
    assert w'.pc == Writing([Decorated(call, now)], 0) && w'.records[|w'.records| - 1] == Record(call, day);
    assert [Decorated(call, now)][0..] == [Decorated(call, now)];
  }

  lemma TextsRest(written: seq<string>, texts: seq<string>, chunks: seq<string>, part: nat)
    requires part < |chunks| && texts == chunks[part..]
    ensures texts[1..] == chunks[part + 1..] && (written + [texts[0]]) + texts[1..] == written + texts
    ensures |texts| == 1 ==> written + [texts[0]] + [] == written + texts
  {
  }

  lemma WriteFollows(w: Worker, written: seq<string>, calls: seq<Call>, expected: seq<string>)
    requires Follows(w, written, calls, expected) && w.pc.Writing? && w.pc.texts != []
    ensures Follows(DoWrite(w), written + [w.pc.texts[0]], calls, expected)
  {
    hide Chunks;
    var chunks := Chunks(w.records[|w.records| - 1]);
    TextsRest(written, w.pc.texts, chunks, w.pc.part);
  }

  lemma TextsAppend(file: seq<Chunk>, c: Chunk, i: nat)
    ensures TextsBy(file + [c], i) == TextsBy(file, i) + if c.thread == i then [c.text] else []
  {
    assert (file + [c])[..|file|] == file;
  }

  // ---- All threads ----

  ghost predicate AllFollow(s: State, actions: seq<Action>, first: Level) {
    && s.level == LevelAfter(actions, first)
    && forall i :: 0 <= i < |s.workers| ==>
         Follows(s.workers[i], TextsBy(s.file, i), CallsBy(actions, i), Expected(actions, i, first))
  }

  lemma HistoriesAppend(actions: seq<Action>, a: Action, i: nat, first: Level)
    ensures CallsBy(actions + [a], i) == CallsBy(actions, i) + if a.Enter? && a.i == i then [a.call] else []
    ensures Expected(actions + [a], i, first)
         == Expected(actions, i, first) + Added(a, i, CallsBy(actions, i), LevelAfter(actions, first))
  {
    hide Added;
    assert (actions + [a])[..|actions|] == actions;
  }

  /** One thread's part of a step. */
  ghost predicate NextFollows(s: State, w: Worker, written: seq<string>, calls: seq<Call>, expected: seq<string>,
                              a: Action, i: nat)
    requires Enabled(s, a) && i < |s.workers|
  {
    var s' := Apply(s, a);
    && i < |s'.workers|
    && Follows(s'.workers[i], written + (if a.Write? && a.i == i then [NextChunk(i, s.workers[i]).text] else []),
               calls + (if a.Enter? && a.i == i then [a.call] else []), expected + Added(a, i, calls, s.level))
  }

  lemma MineFollows(s: State, w: Worker, written: seq<string>, calls: seq<Call>, expected: seq<string>,
                    a: Action, i: nat)
    requires Enabled(s, a) && i < |s.workers| && s.workers[i] == w && Follows(w, written, calls, expected)
    requires !a.SetLevel? && a.i == i
    ensures NextFollows(s, w, written, calls, expected, a, i)
  {
    hide Follows, DoEnter, DoCheck, DoReadClock, DoWrite, Decorated, Cut, Passes, Timestamp.TimeText;
    assert written + [] == written && calls + [] == calls && expected + [] == expected;
    match a
    case Enter(_, call) => EnterFollows(w, written, calls, expected, call);
    case Check(_) => CheckFollows(w, written, calls, expected, s.level);
    case ReadClock(_, now) => ReadClockFollows(w, written, calls, expected, now);
    case Write(_) => WriteFollows(w, written, calls, expected);
  }

  lemma OtherFollows(s: State, w: Worker, written: seq<string>, calls: seq<Call>, expected: seq<string>,
                     a: Action, i: nat)
    requires Enabled(s, a) && i < |s.workers| && s.workers[i] == w && Follows(w, written, calls, expected)
    requires a.SetLevel? || a.i != i
    ensures NextFollows(s, w, written, calls, expected, a, i)
  {
    hide Follows, DoEnter, DoCheck, DoReadClock, DoWrite, Decorated, Cut, Passes, Timestamp.TimeText;
    assert written + [] == written && calls + [] == calls && expected + [] == expected;
  }

  lemma FileGrows(s: State, a: Action, i: nat)
    requires Enabled(s, a) && i < |s.workers|
    ensures TextsBy(Apply(s, a).file, i)
         == TextsBy(s.file, i) + if a.Write? && a.i == i then [NextChunk(i, s.workers[i]).text] else []
  {
    hide TextsBy, DoEnter, DoCheck, DoReadClock, DoWrite;
    if a.Write? { TextsAppend(s.file, NextChunk(a.i, s.workers[a.i]), i); }
  }

  lemma StepFollows(s: State, actions: seq<Action>, a: Action, first: Level, i: nat)
    requires AllFollow(s, actions, first) && Enabled(s, a) && i < |s.workers|
    ensures
      var s' := Apply(s, a);
      && i < |s'.workers|
      && Follows(s'.workers[i], TextsBy(s'.file, i), CallsBy(actions + [a], i), Expected(actions + [a], i, first))
  {
    var w := s.workers[i];
    var written, calls, expected := TextsBy(s.file, i), CallsBy(actions, i), Expected(actions, i, first);
    hide Follows, TextsBy, CallsBy, Expected, Apply, Enabled, Added, NextChunk;
    assert Follows(w, written, calls, expected) && s.level == LevelAfter(actions, first);
    if a.SetLevel? || a.i != i {
      OtherFollows(s, w, written, calls, expected, a, i);
    } else {
      MineFollows(s, w, written, calls, expected, a, i);
    }
    FileGrows(s, a, i);
    HistoriesAppend(actions, a, i, first);
  }

  lemma LevelIs(s: State, actions: seq<Action>, first: Level)
    requires AllFollow(s, actions, first)
    ensures s.level == LevelAfter(actions, first)
  {
  }

  lemma StepLevel(s: State, actions: seq<Action>, a: Action, first: Level)
    requires s.level == LevelAfter(actions, first) && Enabled(s, a)
    ensures Apply(s, a).level == LevelAfter(actions + [a], first) && |Apply(s, a).workers| == |s.workers|
  {
    assert (actions + [a])[..|actions|] == actions;
    hide DoEnter, DoCheck, DoReadClock, DoWrite;
  }

  lemma {:induction false} RunFollows(n: nat, states: seq<State>, actions: seq<Action>)
    requires Trace(n, states, actions)
    ensures |states[|actions|].workers| == n && AllFollow(states[|actions|], actions, states[0].level)
    decreases |actions|
  {
    if actions == [] {
      StartFollows(n, states[0].level);
    } else {
      var k := |actions| - 1;
      ShorterTrace(n, states, actions, k);
      RunFollows(n, states[..k + 1], actions[..k]);
      var s, first := states[k], states[0].level;
      assert actions == actions[..k] + [actions[k]];
      LevelIs(s, actions[..k], first);
      hide AllFollow, Follows, Apply, Trace;
      StepLevel(s, actions[..k], actions[k], first);
      FollowsAll(s, actions[..k], actions[k], first);
    }
  }

  lemma FollowsAll(s: State, actions: seq<Action>, a: Action, first: Level)
    requires AllFollow(s, actions, first) && Enabled(s, a) && Apply(s, a).level == LevelAfter(actions + [a], first)
    requires |Apply(s, a).workers| == |s.workers|
    ensures AllFollow(Apply(s, a), actions + [a], first)
  {
    hide Follows, Apply, Enabled;
    forall i | 0 <= i < |s.workers|
      ensures Follows(Apply(s, a).workers[i], TextsBy(Apply(s, a).file, i), CallsBy(actions + [a], i),
                      Expected(actions + [a], i, first))
    {
      StepFollows(s, actions, a, first, i);
    }
  }

  lemma StartFollows(n: nat, level: Level)
    ensures AllFollow(Init(n, level), [], level)
  {
  }

  /** In every run, however the level changes: what an idle thread has in the file is exactly what its calls were to
      write, in order, each LogFormat call decided by the level at its test. */
  lemma FileIsExpected(n: nat, states: seq<State>, actions: seq<Action>, i: nat)
    requires Trace(n, states, actions) && i < n
    ensures
      var s := states[|actions|];
      && i < |s.workers| && s.workers[i].asked == CallsBy(actions, i) && s.level == LevelAfter(actions, states[0].level)
      && (s.workers[i].pc.Idle? ==> TextsBy(s.file, i) == Expected(actions, i, states[0].level))
  {
    RunFollows(n, states, actions);
    hide Trace, Expected, CallsBy, TextsBy, PcInv;
    assert Follows(states[|actions|].workers[i], TextsBy(states[|actions|].file, i), CallsBy(actions, i),
                   Expected(actions, i, states[0].level));
  }

  // ---- The level tests of a call ----

  /** What the level tests of thread i have found since it last entered a call. */
  function Tests(actions: seq<Action>, i: nat, first: Level): seq<bool> {
    if actions == [] then [] else
    var n := |actions| - 1;
    NextTests(Tests(actions[..n], i, first), actions[n], i, CallsBy(actions[..n], i), LevelAfter(actions[..n], first))
  }

  function NextTests(tests: seq<bool>, a: Action, i: nat, calls: seq<Call>, level: Level): seq<bool> {
    if a.Enter? && a.i == i then []
    else if a.Check? && a.i == i && calls != [] then tests + [Passes(level, calls[|calls| - 1].level)]
    else tests
  }

  /** It has read the time since. */
  function TimeRead(actions: seq<Action>, i: nat): bool {
    if actions == [] then false else
    var n := |actions| - 1;
    NextRead(TimeRead(actions[..n], i), actions[n], i)
  }

  function NextRead(timeRead: bool, a: Action, i: nat): bool {
    if a.Enter? && a.i == i then false else timeRead || (a.ReadClock? && a.i == i)
  }

  /** LogFormatWithTime tests the level itself and again in LogMessageWithTime, each of the others once. */
  function AllPassed(call: Call): seq<bool> { if call.FormatWithTime? then [true, true] else [true] }

  /** A call that has returned read the time if and only if it passed all its tests, unless it was LogFormat, which
      never does; it made no test after one that it failed. */
  predicate Decided(call: Call, tests: seq<bool>, timeRead: bool) {
    && (timeRead <==> tests == AllPassed(call) && !call.Format?)
    && (tests == AllPassed(call) || tests == [false] || (call.FormatWithTime? && tests == [true, false]))
  }

  predicate Tested(w: Worker, calls: seq<Call>, tests: seq<bool>, timeRead: bool) {
    && w.asked == calls && (!w.pc.Idle? ==> calls != [])
    && match w.pc
       case Idle => calls != [] ==> Decided(calls[|calls| - 1], tests, timeRead)
       case CheckingFormat(call) =>
         call == calls[|calls| - 1] && (call.Format? || call.FormatWithTime?) && tests == [] && !timeRead
       case CheckingTime(call, _) =>
         && call == calls[|calls| - 1] && !call.Format? && tests == (if call.FormatWithTime? then [true] else [])
         && !timeRead
       case ReadingClock(call, _) =>
         call == calls[|calls| - 1] && !call.Format? && tests == AllPassed(call) && !timeRead
       case Writing(_, _) =>
         var call := calls[|calls| - 1];
         tests == AllPassed(call) && timeRead == !call.Format?
  }

  lemma CheckTested(w: Worker, calls: seq<Call>, tests: seq<bool>, timeRead: bool, level: Level)
    requires Tested(w, calls, tests, timeRead) && (w.pc.CheckingFormat? || w.pc.CheckingTime?)
    ensures Tested(DoCheck(w, level), calls, tests + [Passes(level, calls[|calls| - 1].level)], timeRead)
  {
    var passed := Passes(level, calls[|calls| - 1].level);
    RankDecides(level, calls[|calls| - 1].level);
    assert [] + [passed] == [passed] && [true] + [passed] == [true, passed];
    hide Bounded, Passes, Rank;
  }

  lemma StepTested(s: State, a: Action, i: nat, calls: seq<Call>, tests: seq<bool>, timeRead: bool)
    requires Enabled(s, a) && i < |s.workers| && Tested(s.workers[i], calls, tests, timeRead)
    ensures i < |Apply(s, a).workers|
    ensures
      Tested(Apply(s, a).workers[i], calls + (if a.Enter? && a.i == i then [a.call] else []),
             NextTests(tests, a, i, calls, s.level), NextRead(timeRead, a, i))
  {
    hide Timestamp.TimeText, Decimal4, Bounded, Passes, DoCheck, NextChunk;
    assert calls + [] == calls;
    if a.Check? && a.i == i {
      CheckTested(s.workers[i], calls, tests, timeRead, s.level);
      hide Tested;
    }
  }

  lemma {:induction false} RunTested(n: nat, states: seq<State>, actions: seq<Action>, i: nat)
    requires Trace(n, states, actions) && i < n
    ensures
      var s, first := states[|actions|], states[0].level;
      && i < |s.workers| && s.level == LevelAfter(actions, first)
      && Tested(s.workers[i], CallsBy(actions, i), Tests(actions, i, first), TimeRead(actions, i))
    decreases |actions|
  {
    hide Apply, Enabled, Tested, NextTests, NextRead;
    if actions == [] {
      StartTested(n, states[0].level, i);
    } else {
      var k, first := |actions| - 1, states[0].level;
      var before := actions[..k];
      ShorterTrace(n, states, actions, k);
      RunTested(n, states[..k + 1], before, i);
      assert actions == before + [actions[k]];
      StepLevel(states[k], before, actions[k], first);
      HistoriesAppend(before, actions[k], i, first);
      StepTested(states[k], actions[k], i, CallsBy(before, i), Tests(before, i, first), TimeRead(before, i));
      hide Trace, Expected, LevelAfter;
    }
  }

  lemma StartTested(n: nat, level: Level, i: nat)
    requires i < n
    ensures i < |Init(n, level).workers| && Tested(Init(n, level).workers[i], [], [], false)
  {
  }

  /** In every run: of a call that has returned, the level tests decided whether it read the time, each by the level
      when it was made. */
  lemma TestsDecide(n: nat, states: seq<State>, actions: seq<Action>, i: nat)
    requires Trace(n, states, actions) && i < n && CallsBy(actions, i) != []
    ensures
      var w, calls := states[|actions|].workers, CallsBy(actions, i);
      && i < |w|
      && (w[i].pc.Idle? ==>
            Decided(calls[|calls| - 1], Tests(actions, i, states[0].level), TimeRead(actions, i)))
  {
    RunTested(n, states, actions, i);
    hide Trace, Tests, TimeRead, CallsBy;
  }

  /** A thread always has a step: a call, if it is in none; the next step of its call, if it is. */
  lemma AlwaysAStep(n: nat, states: seq<State>, actions: seq<Action>, i: nat, call: Call, now: Timestamp.Time)
    requires Trace(n, states, actions) && i < n && Timestamp.Valid(now)
    ensures
      var s := states[|actions|];
      && i < |s.workers|
      && if s.workers[i].pc.Idle? then Enabled(s, Enter(i, call))
         else Enabled(s, Check(i)) || Enabled(s, ReadClock(i, now)) || Enabled(s, Write(i))
  {
    hide Expected, CallsBy, TextsBy, Follows, Apply;
    assert |states| == |actions| + 1;
    RunFollows(n, states, actions);
    hide Trace;
    var s := states[|actions|];
    StillWriting(s.workers[i], TextsBy(s.file, i), CallsBy(actions, i), Expected(actions, i, states[0].level));
  }

  lemma StillWriting(w: Worker, written: seq<string>, calls: seq<Call>, expected: seq<string>)
    requires Follows(w, written, calls, expected)
    ensures w.pc.Writing? ==> w.pc.texts != []
  {
    hide Chunks;
  }
}

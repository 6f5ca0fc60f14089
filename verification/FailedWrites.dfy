/**
 Any sequence of appends to one log, each of which may be cut off while it is written. The health of
 the log is told from the calls alone, without looking at the file.
 */
module FailedWrites {
  import opened Wrappers
  import opened Schema
  import opened Codec
  import opened EventLog

  datatype Call = Call(batch: seq<AgentEvent>, write: Write)

  /**
   Good: the file is `kept`. Torn: an unterminated part that is no event follows. Unended: an
   unterminated but whole last event follows. Spoiled: a terminated line that is no event follows.
   */
  datatype Health =
    | Good(kept: seq<AgentEvent>)
    | TornAt(kept: seq<AgentEvent>, part: string)
    | Unended(kept: seq<AgentEvent>, last: AgentEvent)
    | Spoiled(kept: seq<AgentEvent>, tail: Option<AgentEvent>)

  function Reached(batch: seq<AgentEvent>, write: Write): (n: nat)
    ensures n <= |EncodeAll(batch)|
  {
    |Landed(EncodeAll(batch), write)|
  }

  /** After a write of an accepted batch to a good log. */
  function Written(kept: seq<AgentEvent>, batch: seq<AgentEvent>, write: Write): Health {
    var at := Land(batch, Reached(batch, write));
    if write.Whole? then Good(kept + batch)
    else match DamageOf(batch, Reached(batch, write))
      case Clean => Good(kept + batch[..at.lines])
      case LostNewline => Unended(kept + batch[..at.lines], batch[at.lines])
      case Torn => TornAt(kept + batch[..at.lines], Part(batch, at))
  }

  /** After a write of an accepted batch to a log that has lost a newline. */
  function GluedOn(kept: seq<AgentEvent>, last: AgentEvent, batch: seq<AgentEvent>, write: Write): Health
    requires batch != []
  {
    var n := Reached(batch, write);
    if n == 0 then Unended(kept, last)
    else if n <= |EncodeLine(batch[0])| then TornAt(kept, EncodeLine(last) + EncodeLine(batch[0])[..n])
    else Spoiled(kept, if write.Whole? then Last(batch) else None)
  }

  function Done(write: Write): AppendResult { if write.Whole? then Appended else WriteFailed }

  function After(h: Health, c: Call): (Health, AppendResult) {
    if !Increasing(c.batch) then (h, OutOfOrder)
    else if c.batch == [] then (h, Appended)
    else match h
      case Good(kept) =>
        if Above(c.batch[0], Last(kept)) then (Written(kept, c.batch, c.write), Done(c.write)) else (h, OutOfOrder)
      case TornAt(kept, _) => (h, UnreadableLog(InvalidLine(|kept| + 1)))
      case Unended(kept, last) =>
        if Above(c.batch[0], Some(last)) then (GluedOn(kept, last, c.batch, c.write), Done(c.write))
        else (h, OutOfOrder)
      case Spoiled(kept, None) => (h, UnreadableLog(InvalidLine(|kept| + 1)))
      case Spoiled(kept, tail) =>
        if Above(c.batch[0], tail) then (Spoiled(kept, if c.write.Whole? then Last(c.batch) else None), Done(c.write))
        else (h, OutOfOrder)
  }

  function HealthOf(calls: seq<Call>): Health {
    if calls == [] then Good([]) else After(HealthOf(calls[..|calls| - 1]), calls[|calls| - 1]).0
  }

  function StateAfter(calls: seq<Call>): LogState {
    if calls == [] then LogState("", None, false)
    else var c := calls[|calls| - 1]; AfterCall(StateAfter(calls[..|calls| - 1]), c.batch, c.write).0
  }

  // ---- the log is as its health says ----

  /** A terminated line that is no event comes right after the kept ones. */
  ghost predicate SpoiledFile(file: string, kept: seq<AgentEvent>) {
    exists bad, rest ::
      file == EncodeAll(kept) + (bad + "\n" + rest) && '\n' !in bad && DecodeLine(bad) == None
  }

  ghost predicate Fits(s: LogState, h: Health) {
    && Increasing(h.kept)
    && match h
       case Good(kept) => Sound(s, kept)
       case TornAt(kept, part) =>
         && s.file == EncodeAll(kept) + part && part != "" && '\n' !in part && DecodeLine(part) == None
         && !s.loaded
       case Unended(kept, last) =>
         && s.file == EncodeAll(kept) + EncodeLine(last) && Increasing(kept + [last])
         && (s.loaded ==> s.tail == Some(last))
       case Spoiled(kept, tail) =>
         && SpoiledFile(s.file, kept)
         && s.loaded == tail.Some? && (s.loaded ==> s.tail == tail)
  }

  lemma SpoiledReads(file: string, kept: seq<AgentEvent>, mode: Mode)
    requires SpoiledFile(file, kept) && Increasing(kept)
    ensures Read(file, mode) == Reading(kept, Some(InvalidLine(|kept| + 1)))
  {
    hide EncodeLine, DecodeLine, EncodeAll, ReadFrom;
    var bad, rest :| file == EncodeAll(kept) + (bad + "\n" + rest) && '\n' !in bad && DecodeLine(bad) == None;
    ReadEncoded(kept, bad + "\n" + rest, 0, None, mode);
    ReadLine(bad, rest, |kept|, Last(kept), mode);
  }

  /** What both kinds of reader get. */
  lemma {:induction false} ReadersSee(s: LogState, h: Health)
    requires Fits(s, h)
    ensures !h.Spoiled? ==> Read(s.file, SkipTrailingPartial) == Reading(h.kept, None)
    ensures h.Good? ==> Read(s.file, Strict) == Reading(h.kept, None)
    ensures h.TornAt? ==> Read(s.file, Strict) == Reading(h.kept, Some(InvalidLine(|h.kept| + 1)))
    ensures h.Unended? ==> Read(s.file, Strict) == Reading(h.kept + [h.last], None)
    ensures h.Spoiled? ==> forall mode :: Read(s.file, mode) == Reading(h.kept, Some(InvalidLine(|h.kept| + 1)))
  {
    hide EncodeLine, DecodeLine, EncodeAll, Read, SpoiledFile, Increasing;
    match h
    case Good(kept) =>
      ReadUnfinished(kept, "");
      assert EncodeAll(kept) + "" == EncodeAll(kept);
    case TornAt(kept, part) => ReadUnfinished(kept, part);
    case Unended(kept, last) =>
      LineHasNoNewline(last);
      DecodeOwnLine(last);
      LastIsBelow(kept, last);
      ReadUnfinished(kept, EncodeLine(last));
    case Spoiled(kept, _) =>
      forall mode ensures Read(s.file, mode) == Reading(kept, Some(InvalidLine(|kept| + 1))) {
        SpoiledReads(s.file, kept, mode);
      }
  }

  // ---- every call keeps the log as its health says ----

  lemma PartOf(a: seq<AgentEvent>, n: nat)
    requires Increasing(a) && n <= |a|
    ensures Increasing(a[..n])
  {
  }

  /** A failed write that meant to write more than there is has written everything. */
  lemma BreakReaches(s: LogState, batch: seq<AgentEvent>, n: nat)
    ensures AfterCall(s, batch, Breaks(n)) == AfterCall(s, batch, Breaks(Reached(batch, Breaks(n))))
  {
    hide EncodeAll, Read, Increasing, EncodeLine;
    var payload := EncodeAll(batch);
    assert payload[..|payload|] == payload;
  }

  lemma GoodBreaks(s: LogState, kept: seq<AgentEvent>, batch: seq<AgentEvent>, n: nat)
    requires Sound(s, kept) && batch != [] && Increasing(kept + batch) && n <= |EncodeAll(batch)|
    ensures var (t, result) := AfterCall(s, batch, Breaks(n));
      result == WriteFailed && Fits(t, Written(kept, batch, Breaks(n)))
  {
    hide EncodeAll, EncodeLine, DecodeLine, Read, AfterCall, Land, SpoiledFile;
    assert EncodeAll(batch)[..n] == Landed(EncodeAll(batch), Breaks(n));
    var at := Land(batch, n);
    var whole := kept + batch[..at.lines];
    FailedWrite(s, kept, batch, n);
    PartHasNoNewline(batch, n);
    assert kept + batch[..at.lines] == (kept + batch)[..|kept| + at.lines];
    PartOf(kept + batch, |kept| + at.lines);
    if at.extra == 0 {
      assert EncodeAll(whole) + "" == EncodeAll(whole);
    } else {
      var e := batch[at.lines];
      assert whole + [e] == (kept + batch)[..|kept| + at.lines + 1];
      PartOf(kept + batch, |kept| + at.lines + 1);
      assert EncodeLine(e)[..|EncodeLine(e)|] == EncodeLine(e);
      if at.extra < |EncodeLine(e)| {
        DecodePrefix(e, at.extra);
      }
    }
  }

  lemma GoodFits(s: LogState, kept: seq<AgentEvent>, c: Call)
    requires Sound(s, kept) && Increasing(c.batch) && c.batch != []
    ensures var (t, result) := AfterCall(s, c.batch, c.write);
      Fits(t, After(Good(kept), c).0) && result == After(Good(kept), c).1
  {
    JoinIncreasing(kept, c.batch);
    hide EncodeAll, EncodeLine, DecodeLine, Read, Land, SpoiledFile, Written;
    if !Above(c.batch[0], Last(kept)) {
      AdmitSound(s, kept, c.batch[0]);
    } else if c.write.Whole? {
      AppendKeepsSound(s, kept, c.batch);
      assert Written(kept, c.batch, Whole) == Good(kept + c.batch) by { WholeWritten(kept, c.batch); }
    } else {
      var n := Reached(c.batch, c.write);
      BreakReaches(s, c.batch, c.write.landed);
      GoodBreaks(s, kept, c.batch, n);
      SameWritten(kept, c.batch, c.write.landed);
    }
  }

  lemma WholeWritten(kept: seq<AgentEvent>, batch: seq<AgentEvent>)
    ensures Written(kept, batch, Whole) == Good(kept + batch)
  {
  }

  lemma SameWritten(kept: seq<AgentEvent>, batch: seq<AgentEvent>, n: nat)
    ensures Written(kept, batch, Breaks(Reached(batch, Breaks(n)))) == Written(kept, batch, Breaks(n))
  {
    hide EncodeAll, EncodeLine, Land;
  }

  lemma TornFits(s: LogState, h: Health, c: Call)
    requires Fits(s, h) && (h.TornAt? || (h.Spoiled? && h.tail == None)) && Increasing(c.batch) && c.batch != []
    ensures AfterCall(s, c.batch, c.write) == (s, UnreadableLog(InvalidLine(|h.kept| + 1)))
  {
    ReadersSee(s, h);
    hide EncodeAll, EncodeLine, DecodeLine, Read, SpoiledFile, Increasing;
  }

  lemma SpoiledStays(file: string, kept: seq<AgentEvent>, more: string)
    requires SpoiledFile(file, kept)
    ensures SpoiledFile(file + more, kept)
  {
    hide EncodeAll, DecodeLine;
    var bad, rest :| file == EncodeAll(kept) + (bad + "\n" + rest) && '\n' !in bad && DecodeLine(bad) == None;
    assert file + more == EncodeAll(kept) + (bad + "\n" + (rest + more));
  }

  lemma SpoiledFits(s: LogState, h: Health, c: Call)
    requires Fits(s, h) && h.Spoiled? && h.tail.Some? && Increasing(c.batch) && c.batch != []
    ensures var (t, result) := AfterCall(s, c.batch, c.write);
      Fits(t, After(h, c).0) && result == After(h, c).1
  {
    hide EncodeAll, EncodeLine, DecodeLine, Read, SpoiledFile, Increasing;
    SpoiledStays(s.file, h.kept, Landed(EncodeAll(c.batch), c.write));
  }

  /** How the text of a batch begins. */
  lemma BatchBegins(batch: seq<AgentEvent>, n: nat)
    requires batch != [] && n <= |EncodeAll(batch)|
    ensures var line := EncodeLine(batch[0]);
      && |line| < |EncodeAll(batch)|
      && (n <= |line| ==> EncodeAll(batch)[..n] == line[..n])
      && (n > |line| ==> EncodeAll(batch)[..n] == line + "\n" + EncodeAll(batch)[|line| + 1..n])
  {
    hide EncodeLine, EncodeAll;
    EncodeAllStep(batch);
  }

  /** Text glued to an unterminated event is no event, whether or not it brings a newline. */
  lemma GluedIsBad(last: AgentEvent, first: AgentEvent, n: nat)
    requires 0 < n <= |EncodeLine(first)|
    ensures var bad := EncodeLine(last) + EncodeLine(first)[..n];
      bad != "" && '\n' !in bad && DecodeLine(bad) == None
  {
    hide EncodeLine, DecodeLine;
    LineHasNoNewline(last);
    LineHasNoNewline(first);
    LineStarts(first);
    DecodeExact(last, EncodeLine(first)[..n]);
  }

  lemma GluedFits(file: string, kept: seq<AgentEvent>, last: AgentEvent, batch: seq<AgentEvent>, write: Write)
    requires file == EncodeAll(kept) + EncodeLine(last) && Increasing(kept + [last]) && Increasing(kept) && batch != []
    ensures var t := Finish(LogState(file + Landed(EncodeAll(batch), write), Some(last), true), batch[|batch| - 1],
         write.Whole?);
      Fits(t, GluedOn(kept, last, batch, write))
  {
    hide EncodeAll, EncodeLine, DecodeLine, Increasing;
    var line, text, n := EncodeLine(batch[0]), EncodeAll(batch), Reached(batch, write);
    assert text[..|text|] == text;
    assert Landed(text, write) == text[..n];
    BatchBegins(batch, n);
    LineStarts(batch[0]);
    if n == 0 {
      assert file + "" == file;
    } else if n <= |line| {
      GluedIsBad(last, batch[0], n);
      assert file + line[..n] == EncodeAll(kept) + (EncodeLine(last) + line[..n]);
    } else {
      GluedIsBad(last, batch[0], |line|);
      assert line[..|line|] == line;
      var bad, rest := EncodeLine(last) + line, text[|line| + 1..n];
      assert file + text[..n] == EncodeAll(kept) + (bad + "\n" + rest);
    }
  }

  lemma UnendedFits(s: LogState, h: Health, c: Call)
    requires Fits(s, h) && h.Unended? && Increasing(c.batch) && c.batch != []
    ensures var (t, result) := AfterCall(s, c.batch, c.write);
      Fits(t, After(h, c).0) && result == After(h, c).1
  {
    ReadersSee(s, h);
    GluedFits(s.file, h.kept, h.last, c.batch, c.write);
    hide EncodeAll, EncodeLine, DecodeLine, Read, SpoiledFile, Increasing, GluedOn;
    assert Last(h.kept + [h.last]) == Some(h.last);
  }

  lemma {:induction false} CallFits(s: LogState, h: Health, c: Call)
    requires Fits(s, h)
    ensures var (t, result) := AfterCall(s, c.batch, c.write);
      Fits(t, After(h, c).0) && result == After(h, c).1
  {
    hide EncodeAll, EncodeLine, DecodeLine, Read, SpoiledFile, AfterBatch, Increasing, Written, GluedOn;
    if Increasing(c.batch) && c.batch != [] {
      match h
      case Good(kept) => GoodFits(s, kept, c);
      case TornAt(_, _) => TornFits(s, h, c);
      case Unended(_, _) => UnendedFits(s, h, c);
      case Spoiled(_, tail) => if tail == None { TornFits(s, h, c); } else { SpoiledFits(s, h, c); }
    }
  }

  // ---- any sequence of calls ----

  /**
   After any calls whatever, the log is as its health says and the next call returns what its health
   says: the kept events and at most one torn part, unless a newline was lost.
   */
  lemma {:induction false} CallsFit(calls: seq<Call>, next: Call)
    ensures Fits(StateAfter(calls), HealthOf(calls))
    ensures AfterCall(StateAfter(calls), next.batch, next.write).1 == After(HealthOf(calls), next).1
  {
    hide EncodeAll, AfterCall, After, Fits;
    if calls == [] {
      EmptyIsGood();
    } else {
      var n := |calls| - 1;
      CallsFit(calls[..n], calls[n]);
      CallFits(StateAfter(calls[..n]), HealthOf(calls[..n]), calls[n]);
    }
    CallFits(StateAfter(calls), HealthOf(calls), next);
  }

  lemma EmptyIsGood()
    ensures Fits(LogState("", None, false), Good([]))
  {
    EncodeNone("");
  }

  /** Call `i` broke off between a whole line and its newline. */
  predicate LosesNewline(calls: seq<Call>, i: nat)
    requires i < |calls|
  {
    var (kept, c) := (HealthOf(calls[..i]).kept, calls[i]);
    && HealthOf(calls[..i]).Good? && Increasing(c.batch) && c.batch != [] && Above(c.batch[0], Last(kept))
    && c.write.Breaks? && DamageOf(c.batch, Reached(c.batch, c.write)) == LostNewline
  }

  /** Call `j` was accepted after such a loss and got past the end of its first line. */
  predicate GluesLine(calls: seq<Call>, j: nat)
    requires j < |calls|
  {
    var (h, c) := (HealthOf(calls[..j]), calls[j]);
    && h.Unended? && Increasing(c.batch) && c.batch != [] && Above(c.batch[0], Some(h.last))
    && Reached(c.batch, c.write) > |EncodeLine(c.batch[0])|
  }

  lemma StepOf(h: Health, c: Call)
    ensures After(h, c).0.Unended? && !h.Unended? ==>
      && h.Good? && c.write.Breaks?
      && Increasing(c.batch) && c.batch != [] && Above(c.batch[0], Last(h.kept))
      && DamageOf(c.batch, Reached(c.batch, c.write)) == LostNewline
    ensures h.Spoiled? ==> After(h, c).0.Spoiled?
    ensures h.TornAt? ==> After(h, c).0 == h
    ensures !h.Spoiled? ==> (After(h, c).0.Spoiled? <==>
      h.Unended? && Increasing(c.batch) && c.batch != [] && Above(c.batch[0], Some(h.last))
      && Reached(c.batch, c.write) > |EncodeLine(c.batch[0])|)
  {
    hide EncodeAll, EncodeLine, Increasing, Land, Reached;
  }

  /**
   Lines that a reader cannot get past arise in one way only: some call lost just a newline, and a later
   one was accepted and got past its first line.
   */
  lemma {:induction false} SpoiledIff(calls: seq<Call>)
    ensures HealthOf(calls).Spoiled? <==> exists j :: 0 <= j < |calls| && GluesLine(calls, j)
  {
    hide After, GluesLine;
    if calls != [] {
      var n := |calls| - 1;
      SpoiledIff(calls[..n]);
      SpoiledStep(calls);
      forall j | 0 <= j < n ensures GluesLine(calls, j) <==> GluesLine(calls[..n], j) {
        GluesBefore(calls, n, j);
      }
      if HealthOf(calls[..n]).Spoiled? {
        var j :| 0 <= j < n && GluesLine(calls[..n], j);
        assert GluesLine(calls, j);
      }
    }
  }

  lemma SpoiledStep(calls: seq<Call>)
    requires calls != []
    ensures var n := |calls| - 1;
      HealthOf(calls).Spoiled? <==> HealthOf(calls[..n]).Spoiled? || GluesLine(calls, n)
  {
    hide After, EncodeAll, EncodeLine, Increasing, Land, Reached;
    StepOf(HealthOf(calls[..|calls| - 1]), calls[|calls| - 1]);
  }

  lemma GluesBefore(calls: seq<Call>, n: nat, j: nat)
    requires j < n <= |calls|
    ensures GluesLine(calls, j) <==> GluesLine(calls[..n], j)
  {
    hide HealthOf, EncodeAll, EncodeLine, Increasing, Reached;
    assert calls[..n][..j] == calls[..j];
  }

  lemma {:induction false} UnendedOnlyByLoss(calls: seq<Call>)
    requires HealthOf(calls).Unended?
    ensures exists i :: 0 <= i < |calls| && LosesNewline(calls, i)
  {
    hide After, EncodeAll, Increasing, Land, Reached;
    var n := |calls| - 1;
    StepOf(HealthOf(calls[..n]), calls[n]);
    if HealthOf(calls[..n]).Unended? {
      UnendedOnlyByLoss(calls[..n]);
      var i :| 0 <= i < n && LosesNewline(calls[..n], i);
      assert calls[..n][..i] == calls[..i];
      assert LosesNewline(calls, i);
    } else {
      assert LosesNewline(calls, n);
    }
  }

  lemma {:induction false} SpoiledOnlyByLoss(calls: seq<Call>)
    requires HealthOf(calls).Spoiled?
    ensures exists i :: 0 <= i < |calls| && LosesNewline(calls, i)
  {
    hide After, EncodeAll, Increasing, Land, Reached, HealthOf;
    SpoiledIff(calls);
    var j :| 0 <= j < |calls| && GluesLine(calls, j);
    UnendedOnlyByLoss(calls[..j]);
    var i :| 0 <= i < j && LosesNewline(calls[..j], i);
    assert calls[..j][..i] == calls[..i];
    assert LosesNewline(calls, i);
  }

  /** As long as no call loses just a newline, the file is the kept events and at most one torn part. */
  lemma {:induction false} WithoutLossNothingIsHidden(calls: seq<Call>)
    requires forall i | 0 <= i < |calls| :: !LosesNewline(calls, i)
    ensures var (s, h) := (StateAfter(calls), HealthOf(calls));
      && (h.Good? || h.TornAt?) && Fits(s, h)
      && Read(s.file, SkipTrailingPartial) == Reading(h.kept, None)
  {
    hide After, EncodeAll, Fits, Read, AfterCall, Increasing, LosesNewline;
    CallsFit(calls, Call([], Whole));
    if HealthOf(calls).Unended? {
      UnendedOnlyByLoss(calls);
    }
    if HealthOf(calls).Spoiled? {
      SpoiledOnlyByLoss(calls);
    }
    ReadersSee(StateAfter(calls), HealthOf(calls));
  }

  /** Outside a spoiled log what is kept only grows, at its end. */
  lemma {:induction false} KeptGrows(calls: seq<Call>, n: nat)
    requires n <= |calls| && !HealthOf(calls).Spoiled?
    ensures !HealthOf(calls[..n]).Spoiled? && HealthOf(calls[..n]).kept <= HealthOf(calls).kept
    decreases |calls|
  {
    hide After;
    var last := |calls| - 1;
    if n == |calls| {
      assert calls[..n] == calls;
    } else {
      StepKeeps(HealthOf(calls[..last]), calls[last]);
      KeptGrows(calls[..last], n);
      assert calls[..last][..n] == calls[..n];
    }
  }

  /** A step that does not spoil the log keeps what was kept; one that reports success adds its whole batch. */
  lemma StepKeeps(h: Health, c: Call)
    requires !After(h, c).0.Spoiled?
    ensures !h.Spoiled? && h.kept <= After(h, c).0.kept
    ensures After(h, c).1 == Appended ==> After(h, c).0.kept == h.kept + c.batch
  {
    hide EncodeLine, Increasing, Land, DamageOf;
    if c.batch == [] {
      assert h.kept + c.batch == h.kept;
    } else if c.write.Whole? {
      BatchBegins(c.batch, Reached(c.batch, c.write));
    }
  }

  /**
   What a caller was told is appended is there for every reader, unless the log is spoiled: the batches of
   the calls that reported success are contiguous parts of what is kept, in call order.
   */
  lemma AppendedIsKept(calls: seq<Call>, i: nat)
    requires i < |calls| && !HealthOf(calls).Spoiled?
    requires AfterCall(StateAfter(calls[..i]), calls[i].batch, calls[i].write).1 == Appended
    ensures var (kept, from, to) :=
        (HealthOf(calls).kept, |HealthOf(calls[..i]).kept|, |HealthOf(calls[..i + 1]).kept|);
      from <= to <= |kept| && kept[from..to] == calls[i].batch
  {
    hide After, Fits, AfterCall;
    CallsFit(calls[..i], calls[i]);
    KeptGrows(calls, i + 1);
    assert calls[..i + 1][..i] == calls[..i];
    StepKeeps(HealthOf(calls[..i]), calls[i]);
  }

  /** Once a line is torn every later batch is refused and the file never changes again. */
  lemma {:induction false} TearIsFinal(calls: seq<Call>, more: seq<Call>, next: Call)
    requires HealthOf(calls).TornAt?
    ensures HealthOf(calls + more) == HealthOf(calls)
    ensures StateAfter(calls + more).file == StateAfter(calls).file
    ensures AfterCall(StateAfter(calls + more), next.batch, next.write).1 != WriteFailed
    ensures AfterCall(StateAfter(calls + more), next.batch, next.write).1 == Appended ==> next.batch == []
    decreases |more|
  {
    hide EncodeAll, EncodeLine, DecodeLine, AfterCall, Read, Increasing, Land, Reached, SpoiledFile;
    if more == [] {
      assert calls + more == calls;
    } else {
      var n := |more| - 1;
      assert (calls + more)[..|calls + more| - 1] == calls + more[..n];
      TearIsFinal(calls, more[..n], next);
      StepOf(HealthOf(calls + more[..n]), more[n]);
    }
    CallsFit(calls + more, next);
    CallsFit(calls, next);
  }
}

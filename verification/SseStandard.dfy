/**
 The event stream format of sections 9.2.5 and 9.2.6 of the WHATWG HTML standard, read line by
 line from the whole input, and the proof that the byte machine of module Sse agrees with it.
 */
module SseStandard {
  import opened Wrappers
  import opened Sequences
  import opened Utf8
  import opened Mealy
  import opened Sse

  // The standard is read here in its own terms, bytes written out: 10 is LF, 13 is CR, 32 a space, 58 a colon.

  /** How many bytes stand before the first CR or LF. */
  function FirstEnd(s: Bytes): (n: nat)
    ensures n == LineEnd(s)
  {
    if s == [] || s[0] == 13 || s[0] == 10 then 0 else 1 + FirstEnd(s[1..])
  }

  /** CRLF counts as one line end. */
  function EnderLength(s: Bytes, n: nat): (k: nat)
    requires n < |s|
    ensures 1 <= k && n + k <= |s|
  {
    if s[n] == 13 && n + 1 < |s| && s[n + 1] == 10 then 2 else 1
  }

  /** How many bytes stand before the first colon. */
  function FirstColon(s: Bytes): (n: nat)
    ensures n == FindByte(s, COLON)
  {
    if s == [] || s[0] == 58 then 0 else 1 + FirstColon(s[1..])
  }

  /** One leading space of a value does not belong to it. */
  function StripSpace(value: Bytes): (r: Bytes)
    ensures r == WithoutSpace(value)
  {
    if |value| > 0 && value[0] == 32 then value[1..] else value
  }

  /** A leading byte order mark does not belong to the stream. */
  function StripMark(s: Bytes): (r: Bytes)
    ensures r == WithoutBom(s)
  {
    if |s| >= 3 && s[0] == 0xEF && s[1] == 0xBB && s[2] == 0xBF then s[3..] else s
  }

  /** The terminated lines of the input. */
  function Lines(s: Bytes): seq<Bytes>
    decreases |s|
  {
    var n := FirstEnd(s);
    if n == |s| then [] else [s[..n]] + Lines(s[n + EnderLength(s, n)..])
  }

  /** What follows the last line end. */
  function Unterminated(s: Bytes): Bytes
    decreases |s|
  {
    var n := FirstEnd(s);
    if n == |s| then s else Unterminated(s[n + EnderLength(s, n)..])
  }

  /** The standard's data buffer (which ends each data line with LF) and event type buffer. */
  datatype Buffers = Buffers(data: Bytes, eventType: Bytes)

  function Dispatch(buf: Buffers): seq<SseEvent> {
    if buf.data == [] then []
    else
      var data := if buf.data[|buf.data| - 1] == 10 then buf.data[..|buf.data| - 1] else buf.data;
      [SseEvent(if buf.eventType == [] then None else Some(buf.eventType), data)]
  }

  /** The fields `event` and `data`; others are ignored. */
  function ProcessField(buf: Buffers, field: Bytes, value: Bytes): Buffers {
    if field == [101, 118, 101, 110, 116] then buf.(eventType := value)
    else if field == [100, 97, 116, 97] then buf.(data := buf.data + value + [10])
    else buf
  }

  function ProcessLine(buf: Buffers, line: Bytes): Buffers
    requires line != []
  {
    var colon := FirstColon(line);
    if colon == 0 then buf
    else if colon < |line| then ProcessField(buf, line[..colon], StripSpace(line[colon + 1..]))
    else ProcessField(buf, line, [])
  }

  function Interpret(lines: seq<Bytes>, buf: Buffers): seq<SseEvent>
    decreases |lines|
  {
    if lines == [] then []
    else if lines[0] == [] then Dispatch(buf) + Interpret(lines[1..], Buffers([], []))
    else Interpret(lines[1..], ProcessLine(buf, lines[0]))
  }

  /** The events of a whole stream: one leading byte order mark is ignored, an unfinished event is discarded. */
  function StandardEvents(s: Bytes): seq<SseEvent> {
    Interpret(Lines(StripMark(s)), Buffers([], []))
  }

  // -- the byte machine, line by line --------------------------------------------

  function Whole(m: Framing, line: Bytes): Framing {
    m.(line := line, eventBytes := m.eventBytes + |line| + 1)
  }

  function RunLines(m: Framing, lines: seq<Bytes>, lim: Limits): Outcome
    decreases |lines|, 0
  {
    if lines == [] then Go([], m)
    else if |lines[0]| > lim.maxLine || m.eventBytes + |lines[0]| + 1 > lim.maxEvent then Halt([], Undecodable)
    else Onward(EndLine(Whole(m, lines[0])), lines[1..], lim)
  }

  function Onward(ended: Outcome, more: seq<Bytes>, lim: Limits): Outcome
    decreases |more|, 1
  {
    match ended
    case Halt(_, _) => ended
    case Go(out, next) => After(out, RunLines(next, more, lim))
  }

  predicate AtBoundary(m: Framing, lim: Limits) {
    m.line == [] && !m.afterCr && m.eventBytes <= lim.maxEvent
  }

  /** The machine's state at the end of the input, apart from whether a CR came last. */
  predicate Agree(fed: Outcome, lines: Outcome, tail: Bytes, lim: Limits) {
    match lines
    case Halt(_, _) => fed == lines
    case Go(out, next) =>
      if Fits(next, tail, lim) then fed.Go? && fed.out == out && fed.next.(afterCr := false) == Taken(next, tail)
      else fed == Halt(out, Undecodable)
  }

  lemma {:induction false} TakeLineKeepsCr(m: Framing, text: Bytes, cr: bool)
    ensures var (next, e) := TakeLine(m, text);
            TakeLine(m.(afterCr := cr), text) == (next.(afterCr := cr), e)
  {
  }

  lemma EndLineKeepsCr(m: Framing, cr: bool)
    ensures EndLine(m.(afterCr := cr)) ==
            match EndLine(m)
            case Halt(out, why) => Halt(out, why)
            case Go(out, next) => Go(out, next.(afterCr := cr))
  {
    TakeLineKeepsCr(Opened(m), LineText(m), cr);
    assert Opened(m.(afterCr := cr)) == Opened(m).(afterCr := cr);
  }

  lemma EndLineCharges(m: Framing)
    ensures EndLine(m).Go? <==> Valid(m.line)
    ensures EndLine(m).Go? ==>
              var next := EndLine(m).next;
              && next.line == [] && !next.firstLine && next.afterCr == m.afterCr
              && next.eventBytes == (if LineText(m) == [] then 0 else m.eventBytes)
  {
    TakeLineCharges(Opened(m), LineText(m));
  }

  /** After a line end: an LF after a CR is skipped, and then a onward line begins. */
  lemma FeedAfterEnder(next: Framing, s: Bytes, n: nat, lim: Limits)
    requires n < |s| && EndsLine(s[n]) && !next.afterCr
    ensures var fed := Feed(next.(afterCr := s[n] == CR), s[n + 1..], lim);
            var onward := Feed(next, s[n + EnderLength(s, n)..], lim);
            fed == onward ||
            (fed.Go? && onward.Go? && fed.out == onward.out && fed.next.(afterCr := false) == onward.next.(afterCr := false))
  {
    var m := next.(afterCr := s[n] == CR);
    if s[n + 1..] != [] {
      if EnderLength(s, n) == 2 {
        assert s[n + 1..] == [LF] + s[n + 2..];
        assert Step(m, LF, lim) == Go([], next);
        RunOne(Stepper(lim), m, LF);
        RunExtends(Stepper(lim), m, [LF], next, s[n + 2..]);
      } else {
        AfterCrCleared(m, s[n + 1..], lim);
      }
    }
  }

  lemma {:induction false} ByLines(m: Framing, s: Bytes, lim: Limits)
    requires AtBoundary(m, lim)
    ensures Agree(Feed(m, s, lim), RunLines(m, Lines(s), lim), Unterminated(s), lim)
    decreases |s|
  {
    var n := LineEnd(s);
    if s == [] {
    } else if n == |s| {
      FeedRun(m, s, n, lim);
      assert s[..n] == s && s[n..] == [];
    } else {
      FeedRun(m, s, n, lim);
      if Fits(m, s[..n], lim) {
        ByLinesAfter(m, s, n, lim);
      }
    }
  }

  function FeedOnward(ended: Outcome, cr: bool, s: Bytes, lim: Limits): Outcome {
    match ended
    case Halt(_, _) => ended
    case Go(out, next) => After(out, Feed(next.(afterCr := cr), s, lim))
  }

  lemma {:induction false} EnderStep(m: Framing, line: Bytes, ender: byte, lim: Limits)
    requires m.line == [] && EndsLine(ender)
    ensures Step(Taken(m, line), ender, lim) ==
            if m.eventBytes + |line| + 1 > lim.maxEvent then Halt([], Undecodable)
            else EndLine(Whole(m, line).(afterCr := ender == CR))
  {
    var taken := Taken(m, line);
    NoneFirst(line);
    if taken.eventBytes + 1 <= lim.maxEvent {
      StepEndsLine(taken, ender, lim);
      assert Ended(taken, ender) == Whole(m, line).(afterCr := ender == CR);
    }
  }

  /** The byte that ends the line completes it. */
  lemma {:induction false} FeedEnder(m: Framing, s: Bytes, n: nat, lim: Limits)
    requires m.line == [] && n < |s| && EndsLine(s[n])
    ensures Feed(Taken(m, s[..n]), s[n..], lim) ==
            if m.eventBytes + n + 1 > lim.maxEvent then Halt([], Undecodable)
            else FeedOnward(EndLine(Whole(m, s[..n])), s[n] == CR, s[n + 1..], lim)
  {
    assert s[n..][0] == s[n] && s[n..][1..] == s[n + 1..];
    EndLineKeepsCr(Whole(m, s[..n]), s[n] == CR);
    EnderStep(m, s[..n], s[n], lim);
  }

  lemma LinesUnfold(s: Bytes)
    requires LineEnd(s) < |s|
    ensures var n := LineEnd(s);
            var more := s[n + EnderLength(s, n)..];
            Lines(s) == [s[..n]] + Lines(more) && Unterminated(s) == Unterminated(more) && |more| < |s|
  {
  }

  lemma RunLinesUnfold(m: Framing, line: Bytes, more: seq<Bytes>, lim: Limits)
    ensures RunLines(m, [line] + more, lim) ==
            if |line| > lim.maxLine || m.eventBytes + |line| + 1 > lim.maxEvent then Halt([], Undecodable)
            else Onward(EndLine(Whole(m, line)), more, lim)
  {
    assert ([line] + more)[1..] == more;
  }

  /** What follows a line end agrees with what follows the line. */
  lemma {:induction false} AgreeOnward(ended: Outcome, fed: Outcome, onward: Outcome, lines: Outcome, tail: Bytes, lim: Limits)
    requires ended.Go? && Agree(onward, lines, tail, lim)
    requires fed == onward || (fed.Go? && onward.Go? && fed.out == onward.out
                               && fed.next.(afterCr := false) == onward.next.(afterCr := false))
    ensures Agree(After(ended.out, fed), After(ended.out, lines), tail, lim)
  {
  }

  /** The induction step: the line ends at `n`. */
  lemma {:induction false} ByLinesAfter(m: Framing, s: Bytes, n: nat, lim: Limits)
    requires AtBoundary(m, lim) && n == LineEnd(s) < |s| && Fits(m, s[..n], lim)
    requires Feed(m, s, lim) == Feed(Taken(m, s[..n]), s[n..], lim)
    ensures Agree(Feed(m, s, lim), RunLines(m, Lines(s), lim), Unterminated(s), lim)
    decreases |s|, 0
  {
    var more := s[n + EnderLength(s, n)..];
    LinesUnfold(s);
    FeedEnder(m, s, n, lim);
    RunLinesUnfold(m, s[..n], Lines(more), lim);
    if m.eventBytes + n + 1 <= lim.maxEvent {
      var whole := Whole(m, s[..n]);
      EndLineCharges(whole);
      var ended := EndLine(whole);
      if ended.Go? {
        FeedAfterEnder(ended.next, s, n, lim);
        ByLines(ended.next, more, lim);
        AgreeOnward(ended, Feed(ended.next.(afterCr := s[n] == CR), s[n + 1..], lim), Feed(ended.next, more, lim),
                    RunLines(ended.next, Lines(more), lim), Unterminated(more), lim);
      }
    }
  }

  // -- agreement with the standard -----------------------------------------------

  predicate Related(m: Framing, buf: Buffers) {
    && (if m.hasData then buf.data == m.data + [LF] else m.data == [] && buf.data == [])
    && buf.eventType == (if m.name.Some? then m.name.value else [])
  }

  function Readable(lines: seq<Bytes>, first: bool): seq<Bytes> {
    if first && lines != [] then [WithoutBom(lines[0])] + lines[1..] else lines
  }

  lemma FieldRelated(m: Framing, buf: Buffers, field: Bytes, value: Bytes)
    requires Related(m, buf)
    ensures Related(Field(m, field, value), ProcessField(buf, field, value))
  {
    assert m.hasData ==> m.data + [LF] + value + [LF] == (m.data + [LF] + value) + [LF];
    assert [] + value == value && m.data + [] + value == m.data + value;
    assert DATA[0] != EVENT[0];
  }

  lemma {:induction false} BlankRelated(m: Framing, buf: Buffers)
    requires Related(m, buf)
    ensures var (next, e) := TakeLine(m, []);
            Related(next, Buffers([], [])) && Emitted(e) == Dispatch(buf)
  {
  }

  lemma {:induction false} LineRelated(m: Framing, buf: Buffers, text: Bytes)
    requires Related(m, buf) && text != []
    ensures var (next, e) := TakeLine(m, text);
            Related(next, ProcessLine(buf, text)) && Emitted(e) == []
  {
    if text[0] != COLON {
      var colon := FindByte(text, COLON);
      if colon < |text| {
        FieldRelated(m, buf, text[..colon], WithoutSpace(text[colon + 1..]));
      } else {
        FieldRelated(m, buf, text, []);
      }
    }
  }

  lemma {:induction false} TakeLineRelated(m: Framing, buf: Buffers, text: Bytes)
    requires Related(m, buf)
    ensures var (next, e) := TakeLine(m, text);
            && Related(next, if text == [] then Buffers([], []) else ProcessLine(buf, text))
            && Emitted(e) == if text == [] then Dispatch(buf) else []
  {
    if text == [] {
      BlankRelated(m, buf);
    } else {
      LineRelated(m, buf, text);
    }
  }

  function NextBuffers(buf: Buffers, text: Bytes): Buffers {
    if text == [] then Buffers([], []) else ProcessLine(buf, text)
  }

  lemma EndLineRelated(m: Framing, buf: Buffers)
    requires Related(m, buf) && EndLine(m).Go?
    ensures var text := LineText(m);
            && Related(EndLine(m).next, NextBuffers(buf, text))
            && EndLine(m).out == if text == [] then Dispatch(buf) else []
  {
    TakeLineRelated(Opened(m), buf, LineText(m));
  }

  lemma InterpretUnfold(text: Bytes, more: seq<Bytes>, buf: Buffers)
    ensures Interpret([text] + more, buf) ==
            (if text == [] then Dispatch(buf) else []) + Interpret(more, NextBuffers(buf, text))
  {
    assert ([text] + more)[1..] == more;
    assert [] + Interpret(more, NextBuffers(buf, text)) == Interpret(more, NextBuffers(buf, text));
  }

  lemma {:induction false} LinesAgree(m: Framing, lines: seq<Bytes>, buf: Buffers, lim: Limits)
    requires Related(m, buf)
    ensures var run := RunLines(m, lines, lim);
            var standard := Interpret(Readable(lines, m.firstLine), buf);
            run.out <= standard && (run.Go? ==> run.out == standard)
    decreases |lines|
  {
    if lines != [] {
      var whole, more := Whole(m, lines[0]), lines[1..];
      var text := LineText(whole);
      RunLinesUnfold(m, lines[0], more, lim);
      InterpretUnfold(text, more, buf);
      assert lines == [lines[0]] + more && Readable(lines, m.firstLine) == [text] + more;
      var ended := EndLine(whole);
      if ended.Go? {
        EndLineRelated(whole, buf);
        EndLineCharges(whole);
        LinesAgree(ended.next, more, NextBuffers(buf, text), lim);
      }
    }
  }

  /** The mark is in the first line, whose end it does not move. */
  lemma {:induction false} BomLine(s: Bytes)
    requires BOM <= s
    ensures LineEnd(s) >= 3 && LineEnd(s[3..]) == LineEnd(s) - 3
    ensures LineEnd(s) < |s| ==> EnderLength(s[3..], LineEnd(s) - 3) == EnderLength(s, LineEnd(s))
  {
    var n, t := LineEnd(s), s[3..];
    assert forall i :: 0 <= i < |t| ==> t[i] == s[i + 3];
    assert !EndsLine(BOM[0]) && !EndsLine(BOM[1]) && !EndsLine(BOM[2]);
  }

  lemma {:induction false} FirstLineSplits(s: Bytes)
    requires LineEnd(s) < |s|
    ensures var n := LineEnd(s); Lines(s) == [s[..n]] + Lines(s[n + EnderLength(s, n)..])
  {
  }

  lemma {:induction false} ReadableFirst(line: Bytes, rest: seq<Bytes>)
    ensures Readable([line] + rest, true) == [WithoutBom(line)] + rest
  {
    assert ([line] + rest)[1..] == rest;
  }

  lemma {:induction false} BomIsInFirstLine(s: Bytes)
    ensures Lines(WithoutBom(s)) == Readable(Lines(s), true)
  {
    var n := LineEnd(s);
    if n < |s| {
      FirstLineSplits(s);
      ReadableFirst(s[..n], Lines(s[n + EnderLength(s, n)..]));
      if BOM <= s {
        BomLine(s);
        FirstLineWithoutBom(s, n, EnderLength(s, n));
        FirstLineSplits(s[3..]);
      } else {
        assert !(BOM <= s[..n]);
      }
    } else if BOM <= s {
      BomLine(s);
    }
  }

  lemma {:induction false} FirstLineWithoutBom(s: Bytes, n: nat, k: nat)
    requires BOM <= s && 3 <= n && n + k <= |s|
    ensures WithoutBom(s) == s[3..] && WithoutBom(s[..n]) == s[..n][3..] == s[3..][..n - 3]
    ensures s[3..][n - 3 + k..] == s[n + k..]
  {
    assert BOM <= s[..n];
  }

  /** Every event delivered is the standard's, in order; an accepted input yields all of them. */
  lemma FollowsStandard(s: Bytes, lim: Limits)
    ensures var fed := Feed(Fresh, s, lim);
            fed.out <= StandardEvents(s) && (fed.Go? ==> fed.out == StandardEvents(s))
  {
    ByLines(Fresh, s, lim);
    LinesAgree(Fresh, Lines(s), Buffers([], []), lim);
    BomIsInFirstLine(s);
  }

  // -- which inputs are accepted --------------------------------------------------

  /** Every line is text within the line limit, and every event so far within the event limit. */
  predicate Acceptable(lines: seq<Bytes>, tail: Bytes, used: nat, first: bool, lim: Limits)
    decreases |lines|
  {
    if lines == [] then |tail| <= lim.maxLine && used + |tail| <= lim.maxEvent
    else
      var size := used + |lines[0]| + 1;
      var blank := (if first then StripMark(lines[0]) else lines[0]) == [];
      && |lines[0]| <= lim.maxLine && size <= lim.maxEvent && Valid(lines[0])
      && Acceptable(lines[1..], tail, if blank then 0 else size, false, lim)
  }

  lemma {:induction false} LinesAccepted(m: Framing, lines: seq<Bytes>, tail: Bytes, lim: Limits)
    requires m.line == []
    ensures var run := RunLines(m, lines, lim);
            (run.Go? && Fits(run.next, tail, lim)) <==> Acceptable(lines, tail, m.eventBytes, m.firstLine, lim)
    decreases |lines|
  {
    if lines != [] {
      var text := if m.firstLine then WithoutBom(lines[0]) else lines[0];
      var whole := Whole(m, lines[0]);
      EndLineCharges(whole);
      assert LineText(whole) == text && whole.line == lines[0];
      var ended := EndLine(whole);
      if ended.Go? {
        LinesAccepted(ended.next, lines[1..], tail, lim);
        assert Acceptable(lines, tail, m.eventBytes, m.firstLine, lim) <==>
               |lines[0]| <= lim.maxLine && whole.eventBytes <= lim.maxEvent
               && Acceptable(lines[1..], tail, ended.next.eventBytes, false, lim);
      }
    }
  }

  /** Exactly the acceptable inputs are accepted; every refusal is `Undecodable`. */
  lemma AcceptedExactly(s: Bytes, lim: Limits)
    ensures Feed(Fresh, s, lim).Go? <==> Acceptable(Lines(s), Unterminated(s), 0, true, lim)
    ensures Feed(Fresh, s, lim).Halt? ==> Feed(Fresh, s, lim).why == Undecodable
  {
    ByLines(Fresh, s, lim);
    LinesAccepted(Fresh, Lines(s), Unterminated(s), lim);
    RefusalKind(Fresh, Lines(s), lim);
  }

  lemma {:induction false} RefusalKind(m: Framing, lines: seq<Bytes>, lim: Limits)
    ensures RunLines(m, lines, lim).Halt? ==> RunLines(m, lines, lim).why == Undecodable
    decreases |lines|
  {
    if lines != [] && EndLine(Whole(m, lines[0])).Go? {
      RefusalKind(EndLine(Whole(m, lines[0])).next, lines[1..], lim);
    }
  }

  lemma {:induction false} TextAroundEnder(s: Bytes, n: nat)
    requires Valid(s) && n < |s| && EndsLine(s[n])
    ensures Valid(s[..n]) && Valid(s[n + EnderLength(s, n)..])
  {
    var after := s[n + 1..];
    SplitAtAscii(s[..n], s[n], after);
    assert s == s[..n] + [s[n]] + after;
    if EnderLength(s, n) == 2 {
      AsciiFirst(after);
      assert after[1..] == s[n + 2..];
    }
  }

  predicate AllValid(lines: seq<Bytes>) {
    forall k :: 0 <= k < |lines| ==> Valid(lines[k])
  }

  lemma AllValidFirst(line: Bytes, more: seq<Bytes>)
    requires Valid(line) && AllValid(more)
    ensures AllValid([line] + more)
  {
  }

  lemma {:induction false} EachLineValid(s: Bytes)
    requires Valid(s)
    ensures AllValid(Lines(s)) && Valid(Unterminated(s))
    decreases |s|
  {
    var n := LineEnd(s);
    if n < |s| {
      TextAroundEnder(s, n);
      LinesUnfold(s);
      EachLineValid(s[n + EnderLength(s, n)..]);
      AllValidFirst(s[..n], Lines(s[n + EnderLength(s, n)..]));
    }
  }

  /** Text splits into lines of text, so on valid UTF-8 only the limits can refuse an input. */
  lemma {:induction false} LinesOfText(s: Bytes)
    requires Valid(s)
    ensures forall l :: l in Lines(s) ==> Valid(l)
    ensures Valid(Unterminated(s))
  {
    EachLineValid(s);
  }

  // -- delivered text is text -----------------------------------------------------

  predicate TextEvent(e: SseEvent) {
    Valid(e.data) && (e.name.Some? ==> Valid(e.name.value))
  }

  predicate DataText(data: Bytes) {
    data == [] || (data[|data| - 1] == LF && Valid(data[..|data| - 1]))
  }

  predicate HoldsText(buf: Buffers) {
    Valid(buf.eventType) && DataText(buf.data)
  }

  lemma AfterCharacter(s: Bytes, n: nat)
    requires Valid(s) && s != [] && CharLength(s) == n
    ensures n <= |s| && Valid(s[n..])
  {
  }

  lemma PiecesOfText(line: Bytes)
    requires Valid(line)
    ensures Valid(WithoutBom(line)) && Valid(WithoutSpace(line))
  {
    if BOM <= line {
      assert line[0] == 0xEF && line[1] == 0xBB && line[2] == 0xBF;
      AfterCharacter(line, 3);
    }
    if line != [] && line[0] == SPACE {
      AfterCharacter(line, 1);
    }
  }

  lemma {:induction false} FieldOfText(line: Bytes, n: nat)
    requires Valid(line) && n < |line| && line[n] == COLON
    ensures Valid(line[..n]) && Valid(line[n + 1..])
  {
    SplitAtAscii(line[..n], COLON, line[n + 1..]);
    assert line == line[..n] + [COLON] + line[n + 1..];
  }

  lemma BufferIsText(data: Bytes)
    requires data != [] && data[|data| - 1] == LF && Valid(data[..|data| - 1])
    ensures Valid(data)
  {
    AsciiLast(data[..|data| - 1], LF);
    assert data == data[..|data| - 1] + [LF];
  }

  lemma DataHoldsText(data: Bytes, value: Bytes)
    requires Valid(value) && DataText(data)
    ensures DataText(data + value + [LF])
  {
    var more := data + value + [LF];
    assert more[|more| - 1] == LF && more[..|more| - 1] == data + value;
    assert Valid(data + value) by {
      if data == [] {
        assert data + value == value;
      } else {
        BufferIsText(data);
        ValidConcat(data, value);
      }
    }
  }

  lemma FieldHoldsText(buf: Buffers, field: Bytes, value: Bytes)
    requires HoldsText(buf) && Valid(value)
    ensures HoldsText(ProcessField(buf, field, value))
  {
    DataHoldsText(buf.data, value);
  }

  lemma {:induction false} InterpretGivesText(lines: seq<Bytes>, buf: Buffers)
    requires HoldsText(buf) && forall l :: l in lines ==> Valid(l)
    ensures forall e :: e in Interpret(lines, buf) ==> TextEvent(e)
    decreases |lines|
  {
    if lines != [] {
      var line := lines[0];
      if line == [] {
        InterpretGivesText(lines[1..], Buffers([], []));
      } else {
        if line[0] != COLON {
          var colon := FindByte(line, COLON);
          if colon < |line| {
            FieldOfText(line, colon);
            PiecesOfText(line[colon + 1..]);
            FieldHoldsText(buf, line[..colon], WithoutSpace(line[colon + 1..]));
          } else {
            FieldHoldsText(buf, line, []);
          }
        }
        InterpretGivesText(lines[1..], ProcessLine(buf, line));
      }
    }
  }

  /** Names and data of delivered events are valid UTF-8, so building strings from them cannot fail. */
  lemma DeliveredTextIsValid(s: Bytes, lim: Limits)
    requires Valid(s)
    ensures forall e :: e in Feed(Fresh, s, lim).out ==> TextEvent(e)
  {
    FollowsStandard(s, lim);
    PiecesOfText(s);
    LinesOfText(WithoutBom(s));
    InterpretGivesText(Lines(WithoutBom(s)), Buffers([], []));
  }
}

/**
 Incremental server-sent-event framing: the byte machine, the class that runs it
 over chunks, and the line-by-line reading of section 9.2.6 of the WHATWG HTML standard.
 */
module Sse {
  import opened Wrappers
  import opened Utf8
  import opened Mealy

  const CR: byte := 13
  const LF: byte := 10
  const SPACE: byte := 32
  const COLON: byte := 58
  const BOM: Bytes := [0xEF, 0xBB, 0xBF]
  const DATA: Bytes := [100, 97, 116, 97]
  const EVENT: Bytes := [101, 118, 101, 110, 116]

  datatype SseEvent = SseEvent(name: Option<Bytes>, data: Bytes)

  datatype Limits = Limits(maxLine: nat, maxEvent: nat)

  /** What the parser remembers between two bytes. */
  datatype Framing = Framing(line: Bytes, name: Option<Bytes>, data: Bytes, hasData: bool,
                             firstLine: bool, afterCr: bool, eventBytes: nat)

  const Fresh := Framing([], None, [], false, true, false, 0)

  type Outcome = Move<Framing, SseEvent, ErrorKind>

  predicate EndsLine(b: byte) {
    b == CR || b == LF
  }

  function FindByte(s: Bytes, b: byte): (n: nat)
    ensures n <= |s|
    ensures n < |s| ==> s[n] == b
    ensures forall i :: 0 <= i < n ==> s[i] != b
  {
    if s == [] || s[0] == b then 0 else 1 + FindByte(s[1..], b)
  }

  function WithoutBom(s: Bytes): Bytes {
    if BOM <= s then s[|BOM|..] else s
  }

  function WithoutSpace(s: Bytes): Bytes {
    if s != [] && s[0] == SPACE then s[1..] else s
  }

  // -- the machine ------------------------------------------------------------

  function Field(m: Framing, field: Bytes, value: Bytes): Framing {
    if field == DATA then
      m.(data := m.data + (if m.hasData then [LF] else []) + value, hasData := true)
    else if field == EVENT then m.(name := Some(value))
    else m
  }

  /** A complete line of text, without byte order mark, applied to the pending event. */
  function TakeLine(m: Framing, text: Bytes): (Framing, Option<SseEvent>) {
    if text == [] then
      (m.(name := None, data := [], hasData := false, eventBytes := 0),
       if m.hasData then Some(SseEvent(NonEmpty(m.name), m.data)) else None)
    else if text[0] == COLON then (m, None)
    else
      var colon := FindByte(text, COLON);
      if colon == |text| then (Field(m, text, []), None)
      else (Field(m, text[..colon], WithoutSpace(text[colon + 1..])), None)
  }

  function NonEmpty(name: Option<Bytes>): Option<Bytes> {
    if name == Some([]) then None else name
  }

  function Opened(m: Framing): Framing {
    m.(line := [], firstLine := false)
  }

  function LineText(m: Framing): Bytes {
    if m.firstLine then WithoutBom(m.line) else m.line
  }

  function Emitted(e: Option<SseEvent>): seq<SseEvent> {
    if e.Some? then [e.value] else []
  }

  /** The line is complete: its text is checked and applied. */
  function EndLine(m: Framing): Outcome {
    if !Valid(m.line) then Halt([], Undecodable)
    else
      var (next, e) := TakeLine(Opened(m), LineText(m));
      Go(Emitted(e), next)
  }

  function Step(m: Framing, b: byte, lim: Limits): Outcome {
    if m.afterCr && b == LF then Go([], m.(afterCr := false))
    else if EndsLine(b) then
      if m.eventBytes + 1 > lim.maxEvent then Halt([], Undecodable)
      else EndLine(m.(afterCr := b == CR, eventBytes := m.eventBytes + 1))
    else if |m.line| + 1 > lim.maxLine || m.eventBytes + 1 > lim.maxEvent then Halt([], Undecodable)
    else Go([], m.(afterCr := false, eventBytes := m.eventBytes + 1, line := m.line + [b]))
  }

  /** A line end counted, its line not yet read. */
  function Ended(m: Framing, b: byte): Framing {
    m.(afterCr := b == CR, eventBytes := m.eventBytes + 1)
  }

  lemma StepEndsLine(m: Framing, b: byte, lim: Limits)
    requires EndsLine(b) && !m.afterCr && m.eventBytes + 1 <= lim.maxEvent
    ensures Step(m, b, lim) == EndLine(Ended(m, b))
  {
  }

  function Stepper(lim: Limits): Machine<Framing, byte, SseEvent, ErrorKind> {
    (m, b) => Step(m, b, lim)
  }

  /** The byte machine over a whole input. */
  function Feed(m: Framing, input: Bytes, lim: Limits): Outcome {
    Run(Stepper(lim), m, input)
  }

  predicate LimitsHold(m: Framing, lim: Limits) {
    |m.line| <= lim.maxLine && m.eventBytes <= lim.maxEvent
  }

  predicate Fits(m: Framing, piece: Bytes, lim: Limits) {
    |m.line| + |piece| <= lim.maxLine && m.eventBytes + |piece| <= lim.maxEvent
  }

  function Taken(m: Framing, piece: Bytes): Framing {
    m.(line := m.line + piece, eventBytes := m.eventBytes + |piece|, afterCr := false)
  }

  /** The first `n` bytes end no line. */
  predicate WithinLine(s: Bytes, n: nat) {
    n <= |s| && forall i :: 0 <= i < n ==> !EndsLine(s[i])
  }

  /** Position of the first byte that ends a line. */
  function LineEnd(s: Bytes): (n: nat)
    ensures n <= |s|
    ensures n < |s| ==> EndsLine(s[n])
    ensures WithinLine(s, n)
  {
    if s == [] || EndsLine(s[0]) then 0 else 1 + LineEnd(s[1..])
  }

  /** A run of bytes that ends no line is counted and appended at once. */
  lemma {:induction false} FeedPiece(m: Framing, piece: Bytes, lim: Limits)
    requires LimitsHold(m, lim) && !m.afterCr
    requires forall i :: 0 <= i < |piece| ==> !EndsLine(piece[i])
    ensures Feed(m, piece, lim) == if Fits(m, piece, lim) then Go([], Taken(m, piece)) else Halt([], Undecodable)
    decreases |piece|
  {
    if piece == [] {
      assert m.line + piece == m.line;
    } else if Fits(m, piece[..1], lim) {
      var next := m.(eventBytes := m.eventBytes + 1, line := m.line + [piece[0]]);
      assert Step(m, piece[0], lim) == Go([], next);
      FeedPiece(next, piece[1..], lim);
      assert m.line + [piece[0]] + piece[1..] == m.line + piece;
    }
  }

  /** After a CR, only an immediate LF is special. */
  lemma AfterCrCleared(m: Framing, s: Bytes, lim: Limits)
    requires s != [] && !(m.afterCr && s[0] == LF)
    ensures Feed(m, s, lim) == Feed(m.(afterCr := false), s, lim)
  {
    assert Step(m, s[0], lim) == Step(m.(afterCr := false), s[0], lim);
  }

  /** A line's bytes up to position `n`, then the rest. */
  lemma {:induction false} FeedRun(m: Framing, s: Bytes, n: nat, lim: Limits)
    requires LimitsHold(m, lim) && s != [] && !(m.afterCr && s[0] == LF)
    requires WithinLine(s, n)
    ensures Feed(m, s, lim) ==
            if Fits(m, s[..n], lim) then Feed(Taken(m, s[..n]), s[n..], lim) else Halt([], Undecodable)
  {
    var clear := m.(afterCr := false);
    AfterCrCleared(m, s, lim);
    FeedPiece(clear, s[..n], lim);
    assert s == s[..n] + s[n..];
    RunConcat(Stepper(lim), clear, s[..n], s[n..]);
    if Fits(m, s[..n], lim) {
      RunExtends(Stepper(lim), clear, s[..n], Taken(m, s[..n]), s[n..]);
    }
  }


  /** A line end leaves an empty line, and charges start again after a blank one. */
  lemma {:induction false} TakeLineCharges(m: Framing, text: Bytes)
    ensures var next := TakeLine(m, text).0;
            && next.eventBytes == (if text == [] then 0 else m.eventBytes)
            && next.firstLine == m.firstLine && next.line == m.line && next.afterCr == m.afterCr
  {
  }

  /** How an unfinished input is judged. */
  function AtEnd(m: Framing): Result<(), ErrorKind> {
    if !Valid(m.line) then Err(Undecodable)
    else if m.line != [] || m.hasData || m.name.Some? then Err(UnknownOutcome)
    else Ok(())
  }

  /** What a call did, in terms of the byte machine: what the bytes it took produced. */
  ghost predicate Took(lim: Limits, before: Framing, input: Bytes, after: Framing,
                       out: seq<SseEvent>, error: Option<ErrorKind>, rest: Bytes)
  {
    && |rest| <= |input| && rest == input[|input| - |rest|..]
    && Run(Stepper(lim), before, Eaten(input, error, rest)) == AsMove(out, error, after)
  }

  function Eaten(input: Bytes, error: Option<ErrorKind>, rest: Bytes): Bytes
    requires |rest| <= |input|
  {
    if error.Some? then input else input[..|input| - |rest|]
  }

  function AsMove(out: seq<SseEvent>, error: Option<ErrorKind>, after: Framing): Outcome {
    if error.Some? then Halt(out, error.value) else Go(out, after)
  }

  lemma TookNothing(lim: Limits, m: Framing, input: Bytes)
    ensures Took(lim, m, input, m, [], None, input)
  {
    assert input[..0] == [];
  }

  /** One call after another. */
  lemma TookTwice(lim: Limits, start: Framing, input: Bytes, here: Framing, out: seq<SseEvent>, middle: Bytes,
                  after: Framing, more: seq<SseEvent>, error: Option<ErrorKind>, rest: Bytes)
    requires Took(lim, start, input, here, out, None, middle)
    requires Took(lim, here, middle, after, more, error, rest)
    ensures Took(lim, start, input, after, out + more, error, rest)
  {
    var eaten := Eaten(input, None, middle);
    var next := Eaten(middle, error, rest);
    assert Eaten(input, error, rest) == eaten + next;
    RunConcat(Stepper(lim), start, eaten, next);
  }

  /** What was done with a chunk was done with all the bytes that begin with it. */
  lemma TookChunk(lim: Limits, m: Framing, chunk: Bytes, after: Framing,
                  out: seq<SseEvent>, error: Option<ErrorKind>, later: Bytes)
    requires Took(lim, m, chunk, after, out, error, [])
    ensures Took(lim, m, chunk + later, after, out, error, later)
  {
    assert Eaten(chunk, error, []) == chunk;
    if error.Some? {
      HaltsOnwards(Stepper(lim), m, chunk, later);
    } else {
      assert Eaten(chunk + later, error, later) == chunk;
    }
  }

  lemma TookSkippedLf(lim: Limits, m: Framing, input: Bytes)
    requires m.afterCr && input != [] && input[0] == LF
    ensures Took(lim, m, input, m.(afterCr := false), [], None, input[1..])
  {
    RunOne(Stepper(lim), m, LF);
    assert input[..1] == [LF];
  }

  /** A CR seen before changes nothing for any other byte. */
  lemma TookCleared(lim: Limits, m: Framing, input: Bytes, after: Framing,
                    out: seq<SseEvent>, error: Option<ErrorKind>, rest: Bytes, event: bool)
    requires input != [] && !(m.afterCr && input[0] == LF)
    requires Took(lim, m.(afterCr := false), input, after, out, error, rest) && (error.Some? || |rest| < |input|)
    requires Prompt(lim, m.(afterCr := false), input, event, rest)
    ensures Took(lim, m, input, after, out, error, rest) && Prompt(lim, m, input, event, rest)
  {
    AfterCrCleared(m, Eaten(input, error, rest), lim);
    if event && input[..|input| - |rest| - 1] != [] {
      AfterCrCleared(m, input[..|input| - |rest| - 1], lim);
    }
  }

  /** Bytes that exceed a limit before any line ends. */
  lemma TookTooMuch(lim: Limits, m: Framing, input: Bytes, n: nat, after: Framing, rest: Bytes)
    requires LimitsHold(m, lim) && input != [] && !m.afterCr
    requires WithinLine(input, n) && !Fits(m, input[..n], lim)
    requires |rest| <= |input| && rest == input[|input| - |rest|..]
    ensures Took(lim, m, input, after, [], Some(Undecodable), rest)
  {
    FeedRun(m, input, n, lim);
  }

  /** Bytes that end no line. */
  lemma TookAll(lim: Limits, m: Framing, input: Bytes)
    requires LimitsHold(m, lim) && input != [] && !m.afterCr
    requires WithinLine(input, |input|) && Fits(m, input, lim)
    ensures Took(lim, m, input, Taken(m, input), [], None, [])
  {
    assert input[..|input|] == input && input[|input|..] == [];
    FeedRun(m, input, |input|, lim);
  }

  /** Bytes through the first line end. */
  lemma {:induction false} TookLine(lim: Limits, m: Framing, input: Bytes, n: nat, after: Framing,
                                    out: seq<SseEvent>, error: Option<ErrorKind>, rest: Bytes)
    requires LimitsHold(m, lim) && !m.afterCr
    requires n < |input| && (rest == input[n + 1..] || (error.Some? && rest == input[n..]))
    requires WithinLine(input, n) && Fits(m, input[..n], lim)
    requires Step(Taken(m, input[..n]), input[n], lim) == AsMove(out, error, after)
    ensures Took(lim, m, input, after, out, error, rest)
  {
    var head, taken := input[..n + 1], Taken(m, input[..n]);
    FeedRun(m, head, n, lim);
    assert head[..n] == input[..n] && head[n..] == [input[n]];
    RunOne(Stepper(lim), taken, input[n]);
    if error.Some? {
      assert input == head + input[n + 1..];
      HaltsOnwards(Stepper(lim), m, head, input[n + 1..]);
    }
  }

  /** Bytes that complete no event. */
  ghost predicate Silent(lim: Limits, m: Framing, s: Bytes) {
    Run(Stepper(lim), m, s).Go? && Run(Stepper(lim), m, s).out == []
  }

  /** An event appears on the last byte taken, never earlier. */
  ghost predicate Prompt(lim: Limits, m: Framing, input: Bytes, event: bool, rest: Bytes) {
    event ==> |rest| < |input| && Silent(lim, m, input[..|input| - |rest| - 1])
  }

  lemma PromptLine(lim: Limits, m: Framing, input: Bytes, n: nat, event: bool, rest: Bytes)
    requires LimitsHold(m, lim) && !m.afterCr
    requires n < |input| && WithinLine(input, n) && Fits(m, input[..n], lim)
    requires rest == input[n + 1..]
    ensures Prompt(lim, m, input, event, rest)
  {
    var piece := input[..n];
    assert input[..|input| - |rest| - 1] == piece;
    if n > 0 {
      assert piece[..n] == piece && piece[n..] == [];
      FeedRun(m, piece, n, lim);
    }
  }

  lemma PromptLater(lim: Limits, start: Framing, input: Bytes, here: Framing, middle: Bytes, event: bool, rest: Bytes)
    requires Took(lim, start, input, here, [], None, middle)
    requires |rest| <= |middle| && Prompt(lim, here, middle, event, rest)
    ensures Prompt(lim, start, input, event, rest)
  {
    if event {
      var eaten := Eaten(input, None, middle);
      var more := middle[..|middle| - |rest| - 1];
      assert input[..|input| - |rest| - 1] == eaten + more;
      RunExtends(Stepper(lim), start, eaten, here, more);
    }
  }

  type Decoded = Result<Option<SseEvent>, ErrorKind>

  function Events(result: Decoded): seq<SseEvent> {
    if result.Ok? then Emitted(result.value) else []
  }

  function Error(result: Decoded): Option<ErrorKind> {
    if result.Err? then Some(result.error) else None
  }

  // -- the parser -------------------------------------------------------------

  class SseParser {
    var line: Bytes
    var eventName: Option<Bytes>
    var data: Bytes
    var hasData: bool
    var firstLine: bool
    var afterCr: bool
    var eventBytes: nat
    const limits: Limits
    var failed: bool
    var finished: bool

    ghost function State(): Framing
      reads this
    {
      Framing(line, eventName, data, hasData, firstLine, afterCr, eventBytes)
    }

    ghost predicate IsValid()
      reads this
    {
      !failed ==> LimitsHold(State(), limits)
    }

    constructor (limits: Limits)
      ensures IsValid() && !failed && !finished && State() == Fresh && this.limits == limits
    {
      line, eventName, data, hasData := [], None, [], false;
      firstLine, afterCr, eventBytes := true, false, 0;
      this.limits := limits;
      failed, finished := false, false;
    }

    method Fail(error: ErrorKind) returns (kind: ErrorKind)
      modifies this
      ensures failed && kind == error && finished == old(finished) && IsValid()
    {
      failed := true;
      line, eventName, data := [], None, [];
      kind := error;
    }

    /** Consumes bytes through at most one event; `rest` is what the caller keeps. */
    method Decode(input: Bytes) returns (result: Decoded, rest: Bytes)
      requires IsValid()
      modifies this
      ensures IsValid() && finished == old(finished)
      ensures |rest| <= |input| && rest == input[|input| - |rest|..]
      ensures old(failed) ==> failed && result == Err(InvalidRequest) && rest == input
      ensures !old(failed) && finished ==>
                rest == input && failed == (input != []) &&
                result == (if input == [] then Ok(None) else Err(InvalidRequest)) &&
                (input == [] ==> State() == old(State()))
      ensures !old(failed) && !finished ==>
                && failed == result.Err?
                && Took(limits, old(State()), input, State(), Events(result), Error(result), rest)
                && (result == Ok(None) ==> rest == [])
                && Prompt(limits, old(State()), input, result.Ok? && result.value.Some?, rest)
    {
      rest := input;
      if failed {
        return Err(InvalidRequest), rest;
      }
      if finished {
        if input == [] {
          return Ok(None), rest;
        }
        var kind := Fail(InvalidRequest);
        return Err(kind), rest;
      }
      result, rest := DecodeInner(input);
      if result.Err? {
        var kind := Fail(result.error);
        result := Err(kind);
      }
    }

    method DecodeInner(input: Bytes) returns (result: Decoded, rest: Bytes)
      requires IsValid() && !failed
      modifies this
      ensures failed == old(failed) && finished == old(finished) && (result.Ok? ==> IsValid())
      ensures Took(limits, old(State()), input, State(), Events(result), Error(result), rest)
      ensures result == Ok(None) ==> rest == []
      ensures Prompt(limits, old(State()), input, result.Ok? && result.value.Some?, rest)
    {
      ghost var start := State();
      rest := input;
      TookNothing(limits, start, input);
      while rest != []
        invariant !failed && finished == old(finished) && IsValid()
        invariant Took(limits, start, input, State(), [], None, rest)
        decreases |rest|
      {
        ghost var here, todo := State(), rest;
        var event;
        event, rest := TakeToLineEnd(rest);
        TookTwice(limits, start, input, here, [], todo, State(), Events(event), Error(event), rest);
        assert [] + Events(event) == Events(event);
        PromptLater(limits, start, input, here, todo, event.Ok? && event.value.Some?, rest);
        if event.Err? || event.value.Some? {
          return event, rest;
        }
      }
      result := Ok(None);
    }

    /** One turn of the loop: an LF that belongs to a CR, or the bytes through the next line end. */
    method TakeToLineEnd(input: Bytes) returns (result: Decoded, rest: Bytes)
      requires IsValid() && !failed && input != []
      modifies this
      ensures failed == old(failed) && finished == old(finished) && (result.Ok? ==> IsValid())
      ensures Took(limits, old(State()), input, State(), Events(result), Error(result), rest)
      ensures result.Ok? ==> |rest| < |input|
      ensures Prompt(limits, old(State()), input, result.Ok? && result.value.Some?, rest)
    {
      ghost var here := State();
      if afterCr {
        afterCr := false;
        if input[0] == LF {
          TookSkippedLf(limits, here, input);
          return Ok(None), input[1..];
        }
      }
      result, rest := TakeRun(input);
      TookCleared(limits, here, input, State(), Events(result), Error(result), rest, result.Ok? && result.value.Some?);
    }

    method TakeRun(input: Bytes) returns (result: Decoded, rest: Bytes)
      requires IsValid() && !failed && input != [] && !afterCr
      modifies this
      ensures failed == old(failed) && finished == old(finished) && (result.Ok? ==> IsValid())
      ensures Took(limits, old(State()), input, State(), Events(result), Error(result), rest)
      ensures result.Ok? ==> |rest| < |input|
      ensures Prompt(limits, old(State()), input, result.Ok? && result.value.Some?, rest)
    {
      ghost var here := State();
      rest := input;
      var length := LineEnd(rest);
      if |line| + length > limits.maxLine || !CountBytes(length) {
        TookTooMuch(limits, here, input, length, State(), rest);
        return Err(Undecodable), rest;
      }
      eventBytes := eventBytes + length;
      line := line + rest[..length];
      rest := rest[length..];
      if rest == [] {
        assert input[..length] == input;
        TookAll(limits, here, input);
        return Ok(None), rest;
      }
      ghost var taken := State();
      assert taken == Taken(here, input[..length]);
      var counted := CountBytes(1);
      result := EndLineHere(rest[0]);
      if counted {
        rest := rest[1..];
      }
      TookLine(limits, here, input, length, State(), Events(result), Error(result), rest);
      if result.Ok? {
        PromptLine(limits, here, input, length, result.value.Some?, rest);
      }
    }

    method EndLineHere(ender: byte) returns (result: Decoded)
      requires IsValid() && !failed && !afterCr && EndsLine(ender)
      modifies this
      ensures failed == old(failed) && finished == old(finished) && (result.Ok? ==> IsValid())
      ensures Step(old(State()), ender, limits) == AsMove(Events(result), Error(result), State())
      ensures result.Err? || old(CountBytes(1))
    {
      ghost var before := State();
      if !CountBytes(1) {
        return Err(Undecodable);
      }
      StepEndsLine(before, ender, limits);
      eventBytes := eventBytes + 1;
      afterCr := ender == CR;
      assert State() == Ended(before, ender);
      result := CompleteLineNow();
    }

    predicate CountBytes(count: nat)
      reads this
    {
      eventBytes + count <= limits.maxEvent
    }

    method CompleteLineNow() returns (result: Decoded)
      modifies this
      ensures failed == old(failed) && finished == old(finished)
      ensures EndLine(old(State())) == AsMove(Events(result), Error(result), State())
      ensures result.Ok? ==> line == [] && eventBytes <= old(eventBytes)
    {
      ghost var before := State();
      var bytes := line;
      line := [];
      if !Valid(bytes) {
        return Err(Undecodable);
      }
      var text := bytes;
      if firstLine {
        firstLine := false;
        text := WithoutBom(bytes);
      }
      assert State() == Opened(before) && text == LineText(before);
      TakeLineCharges(State(), text);
      var event := TakeLineNow(text);
      result := Ok(event);
    }

    method TakeLineNow(text: Bytes) returns (event: Option<SseEvent>)
      modifies this
      ensures failed == old(failed) && finished == old(finished)
      ensures (State(), event) == TakeLine(old(State()), text)
    {
      event := None;
      if text == [] {
        if hasData {
          event := Some(SseEvent(NonEmpty(eventName), data));
        }
        eventName, data, hasData, eventBytes := None, [], false, 0;
        return;
      }
      if text[0] == COLON {
        return;
      }
      var colon := FindByte(text, COLON);
      var field, value := text, [];
      if colon < |text| {
        field, value := text[..colon], WithoutSpace(text[colon + 1..]);
      }
      TakeField(field, value);
    }

    method TakeField(field: Bytes, value: Bytes)
      modifies this
      ensures failed == old(failed) && finished == old(finished)
      ensures State() == Field(old(State()), field, value)
    {
      if field == DATA {
        if hasData {
          data := data + [LF];
        }
        data := data + value;
        hasData := true;
        assert data == old(data) + (if old(hasData) then [LF] else []) + value;
      } else if field == EVENT {
        eventName := Some(value);
      }
    }

    /** End of input: a clean boundary, or what is wrong with the unfinished rest. */
    method Finish() returns (result: Result<(), ErrorKind>)
      requires IsValid()
      modifies this
      ensures old(failed) ==> result == Err(InvalidRequest) && failed
      ensures !old(failed) ==> result == AtEnd(old(State())) && failed == result.Err?
      ensures result.Ok? ==> finished && State() == old(State())
    {
      if failed {
        return Err(InvalidRequest);
      }
      if !Valid(line) {
        var kind := Fail(Undecodable);
        return Err(kind);
      }
      if line != [] || hasData || eventName.Some? {
        var kind := Fail(UnknownOutcome);
        return Err(kind);
      }
      finished := true;
      result := Ok(());
    }

    /** Drains one chunk: every event it completes, in order. */
    method Drain(chunk: Bytes) returns (events: seq<SseEvent>, error: Option<ErrorKind>)
      requires IsValid() && !failed && !finished
      modifies this
      ensures IsValid() && finished == old(finished) && failed == error.Some?
      ensures Took(limits, old(State()), chunk, State(), events, error, [])
    {
      ghost var start := State();
      var rest := chunk;
      events, error := [], None;
      TookNothing(limits, start, chunk);
      while true
        invariant !failed && !finished && IsValid() && error == None
        invariant Took(limits, start, chunk, State(), events, None, rest)
        decreases |rest|
      {
        ghost var here, todo := State(), rest;
        var result;
        result, rest := Decode(rest);
        TookTwice(limits, start, chunk, here, events, todo, State(), Events(result), Error(result), rest);
        events := events + Events(result);
        if result.Err? {
          error := Some(result.error);
          assert chunk[|chunk|..] == [];
          return;
        }
        if result.value.None? {
          return;
        }
      }
    }
  }

  /** Chunk after chunk into one parser, until one fails: the same as the uncut bytes. */
  method DrainAll(chunks: seq<Bytes>, limits: Limits)
    returns (events: seq<SseEvent>, error: Option<ErrorKind>, parser: SseParser)
    ensures fresh(parser) && parser.IsValid() && parser.failed == error.Some?
    ensures Feed(Fresh, Flatten(chunks), limits) == AsMove(events, error, parser.State())
  {
    parser := new SseParser(limits);
    events, error := [], None;
    ghost var all := Flatten(chunks);
    TookNothing(limits, Fresh, all);
    var i := 0;
    while i < |chunks|
      invariant 0 <= i <= |chunks|
      invariant fresh(parser) && parser.limits == limits && parser.IsValid()
      invariant !parser.failed && !parser.finished && error == None
      invariant Took(limits, Fresh, all, parser.State(), events, None, Flatten(chunks[i..]))
    {
      ghost var here, later := parser.State(), Flatten(chunks[i + 1..]);
      assert chunks[i..][1..] == chunks[i + 1..];
      assert Flatten(chunks[i..]) == chunks[i] + later;
      var more;
      more, error := parser.Drain(chunks[i]);
      TookChunk(limits, here, chunks[i], parser.State(), more, error, later);
      TookTwice(limits, Fresh, all, here, events, chunks[i] + later, parser.State(), more, error, later);
      events := events + more;
      if error.Some? {
        return;
      }
      i := i + 1;
    }
    assert chunks[i..] == [] && all[..|all|] == all;
  }
}

/**
 Event streams written out and read back. A writer puts `event: ` and the name, `data: ` and each
 line of the data, and a blank line, with or without the space and with any of the three line ends.
 */
module SseText {
  import opened Wrappers
  import opened Utf8
  import opened Sequences
  import opened Sse
  import opened SseStandard

  /** An event to write: its name, if it has one, and its data line by line. */
  datatype Written = Written(name: Option<Bytes>, lines: seq<Bytes>)

  /** A text that ends no line and, where no space is written before it, does not begin with one. */
  predicate OneLine(s: Bytes, spaced: bool) {
    Valid(s) && (forall i :: 0 <= i < |s| ==> s[i] != 13 && s[i] != 10) && (spaced || s == [] || s[0] != 32)
  }

  predicate Writable(w: Written, spaced: bool) {
    && w.lines != [] && (forall k :: 0 <= k < |w.lines| ==> OneLine(w.lines[k], spaced))
    && (w.name.Some? ==> w.name.value != [] && OneLine(w.name.value, spaced))
  }

  predicate IsEnder(ender: Bytes) {
    ender == [10] || ender == [13] || ender == [13, 10]
  }

  /** `event:` and the name. */
  function NameLine(name: Bytes, spaced: bool): Bytes {
    [101, 118, 101, 110, 116, 58] + (if spaced then [32] else []) + name
  }

  /** `data:` and one line of the data. */
  function DataLine(line: Bytes, spaced: bool): Bytes {
    [100, 97, 116, 97, 58] + (if spaced then [32] else []) + line
  }

  function DataLines(lines: seq<Bytes>, spaced: bool): (r: seq<Bytes>)
    ensures |r| == |lines| && forall k :: 0 <= k < |r| ==> r[k] == DataLine(lines[k], spaced)
  {
    seq(|lines|, k requires 0 <= k < |lines| => DataLine(lines[k], spaced))
  }

  function LinesOf(w: Written, spaced: bool): seq<Bytes> {
    (if w.name.Some? then [NameLine(w.name.value, spaced)] else []) + DataLines(w.lines, spaced) + [[]]
  }

  function AllLines(ws: seq<Written>, spaced: bool): seq<Bytes> {
    if ws == [] then [] else LinesOf(ws[0], spaced) + AllLines(ws[1..], spaced)
  }

  function Body(lines: seq<Bytes>, ender: Bytes): Bytes {
    if lines == [] then [] else lines[0] + ender + Body(lines[1..], ender)
  }

  function Encode(ws: seq<Written>, spaced: bool, ender: Bytes): Bytes {
    Body(AllLines(ws, spaced), ender)
  }

  /** The lines with a line feed between any two. */
  function JoinLines(lines: seq<Bytes>): Bytes {
    if lines == [] then [] else if |lines| == 1 then lines[0] else lines[0] + [10] + JoinLines(lines[1..])
  }

  function EventsOf(ws: seq<Written>): (es: seq<SseEvent>)
    ensures |es| == |ws| && forall k :: 0 <= k < |es| ==> es[k] == SseEvent(ws[k].name, JoinLines(ws[k].lines))
  {
    seq(|ws|, k requires 0 <= k < |ws| => SseEvent(ws[k].name, JoinLines(ws[k].lines)))
  }

  // -- the lines of what was written --------------------------------------------------------------

  predicate EndsNothing(s: Bytes) {
    forall i :: 0 <= i < |s| ==> s[i] != 13 && s[i] != 10
  }

  lemma {:induction false} EndAfter(line: Bytes, rest: Bytes)
    requires EndsNothing(line) && rest != [] && (rest[0] == 13 || rest[0] == 10)
    ensures FirstEnd(line + rest) == |line|
    decreases |line|
  {
    if line == [] {
      NoneFirst(rest);
    } else {
      assert (line + rest)[0] == line[0] && (line + rest)[1..] == line[1..] + rest;
      EndAfter(line[1..], rest);
    }
  }

  /** A line and its end, before anything that does not go on with the end. */
  lemma {:induction false} LineFirst(line: Bytes, ender: Bytes, rest: Bytes)
    requires EndsNothing(line) && IsEnder(ender) && (ender == [13] ==> rest == [] || rest[0] != 10)
    ensures Lines(line + ender + rest) == [line] + Lines(rest) && Unterminated(line + ender + rest) == Unterminated(rest)
  {
    var s, n := line + ender + rest, |line|;
    Associate(line, ender, rest);
    EndAfter(line, ender + rest);
    assert s[..n] == line && s[n] == ender[0] && s[n + |ender|..] == rest;
    assert n + 1 < |s| && ender != [13, 10] && rest != [] ==> s[n + 1] == rest[0];
    assert ender == [13, 10] ==> s[n + 1] == 10;
    assert EnderLength(s, n) == |ender|;
  }

  lemma {:induction false} BodyStarts(lines: seq<Bytes>, ender: Bytes)
    requires IsEnder(ender) && ender == [13] && forall k :: 0 <= k < |lines| ==> EndsNothing(lines[k])
    ensures Body(lines, ender) == [] || Body(lines, ender)[0] != 10
  {
    if lines != [] {
      assert Body(lines, ender)[0] == (if lines[0] == [] then ender[0] else lines[0][0]);
    }
  }

  lemma {:induction false} BodyLines(lines: seq<Bytes>, ender: Bytes)
    requires IsEnder(ender) && forall k :: 0 <= k < |lines| ==> EndsNothing(lines[k])
    ensures Lines(Body(lines, ender)) == lines && Unterminated(Body(lines, ender)) == []
    decreases |lines|
  {
    if lines != [] {
      var more := lines[1..];
      if ender == [13] {
        BodyStarts(more, ender);
      }
      BodyLines(more, ender);
      LineFirst(lines[0], ender, Body(more, ender));
      assert [lines[0]] + more == lines;
    }
  }

  // -- what the lines say ---------------------------------------------------------------------------

  lemma {:induction false} ColonAfter(key: Bytes, rest: Bytes)
    requires 58 !in key
    ensures FirstColon(key + [58] + rest) == |key|
    decreases |key|
  {
    var s := key + [58] + rest;
    if key != [] {
      assert s[0] == key[0] && s[0] in key && s[1..] == key[1..] + [58] + rest;
      ColonAfter(key[1..], rest);
    }
  }

  /** A field line: key, colon, a space or none, value. */
  lemma {:induction false} FieldRead(buf: Buffers, key: Bytes, value: Bytes, spaced: bool)
    requires key != [] && 58 !in key && (spaced || value == [] || value[0] != 32)
    ensures var line := key + [58] + (if spaced then [32] else []) + value;
            line != [] && ProcessLine(buf, line) == ProcessField(buf, key, value)
  {
    var given := (if spaced then [32] else []) + value;
    var line := key + [58] + given;
    Associate(key + [58], if spaced then [32] else [], value);
    ColonAfter(key, given);
    assert line[..|key|] == key && line[|key| + 1..] == given;
    assert spaced ==> given[1..] == value;
    NoneFirst(value);
  }

  lemma {:induction false} NameRead(buf: Buffers, name: Bytes, spaced: bool)
    requires OneLine(name, spaced)
    ensures NameLine(name, spaced) != [] && ProcessLine(buf, NameLine(name, spaced)) == buf.(eventType := name)
  {
    var key: Bytes := [101, 118, 101, 110, 116];
    FieldRead(buf, key, name, spaced);
    assert key + [58] == [101, 118, 101, 110, 116, 58];
  }

  lemma {:induction false} DataRead(buf: Buffers, line: Bytes, spaced: bool)
    requires OneLine(line, spaced)
    ensures DataLine(line, spaced) != []
    ensures ProcessLine(buf, DataLine(line, spaced)) == buf.(data := buf.data + line + [10])
  {
    var key: Bytes := [100, 97, 116, 97];
    FieldRead(buf, key, line, spaced);
    assert key + [58] == [100, 97, 116, 97, 58];
  }

  lemma {:induction false} InterpretLine(line: Bytes, more: seq<Bytes>, buf: Buffers)
    requires line != []
    ensures Interpret([line] + more, buf) == Interpret(more, ProcessLine(buf, line))
  {
    assert ([line] + more)[1..] == more;
  }

  /** The data of the lines as the buffer takes it, each with its line feed. */
  lemma {:induction false} DataLinesRead(lines: seq<Bytes>, more: seq<Bytes>, buf: Buffers, spaced: bool)
    requires lines != [] && forall k :: 0 <= k < |lines| ==> OneLine(lines[k], spaced)
    ensures Interpret(DataLines(lines, spaced) + more, buf) ==
            Interpret(more, buf.(data := buf.data + JoinLines(lines) + [10]))
    decreases |lines|
  {
    var all, rest := DataLines(lines, spaced), lines[1..];
    var next := buf.(data := buf.data + lines[0] + [10]);
    DataRead(buf, lines[0], spaced);
    assert all == [DataLine(lines[0], spaced)] + DataLines(rest, spaced);
    Associate([DataLine(lines[0], spaced)], DataLines(rest, spaced), more);
    InterpretLine(DataLine(lines[0], spaced), DataLines(rest, spaced) + more, buf);
    if rest == [] {
      NoneFirst(more);
    } else {
      DataLinesRead(rest, more, next, spaced);
      JoinedBuffer(buf.data, lines[0], JoinLines(rest));
    }
  }

  lemma JoinedBuffer(data: Bytes, line: Bytes, rest: Bytes)
    ensures data + line + [10] + rest + [10] == data + (line + [10] + rest) + [10]
  {
  }

  lemma {:induction false} BlankRead(more: seq<Bytes>, data: Bytes, name: Bytes)
    ensures Interpret([[]] + more, Buffers([] + data + [10], name)) ==
            [SseEvent(if name == [] then None else Some(name), data)] + Interpret(more, Buffers([], []))
  {
    var lines, full: Bytes := [[]] + more, [] + data + [10];
    assert lines[1..] == more;
    assert full[|full| - 1] == 10 && full[..|full| - 1] == data;
  }

  lemma {:induction false} EventRead(w: Written, more: seq<Bytes>, spaced: bool)
    requires Writable(w, spaced)
    ensures Interpret(LinesOf(w, spaced) + more, Buffers([], [])) ==
            [SseEvent(w.name, JoinLines(w.lines))] + Interpret(more, Buffers([], []))
  {
    var name := if w.name.Some? then w.name.value else [];
    var data, rest := DataLines(w.lines, spaced), [[]] + more;
    assert LinesOf(w, spaced) + more ==
           (if w.name.Some? then [NameLine(w.name.value, spaced)] else []) + (data + rest);
    if w.name.Some? {
      NameRead(Buffers([], []), w.name.value, spaced);
      InterpretLine(NameLine(w.name.value, spaced), data + rest, Buffers([], []));
    } else {
      NoneFirst(data + rest);
    }
    DataLinesRead(w.lines, rest, Buffers([], name), spaced);
    BlankRead(more, JoinLines(w.lines), name);
  }

  lemma {:induction false} EventsRead(ws: seq<Written>, spaced: bool)
    requires forall k :: 0 <= k < |ws| ==> Writable(ws[k], spaced)
    ensures Interpret(AllLines(ws, spaced), Buffers([], [])) == EventsOf(ws)
    decreases |ws|
  {
    if ws != [] {
      EventRead(ws[0], AllLines(ws[1..], spaced), spaced);
      EventsRead(ws[1..], spaced);
      assert EventsOf(ws) == [SseEvent(ws[0].name, JoinLines(ws[0].lines))] + EventsOf(ws[1..]);
    }
  }

  // -- the limits -------------------------------------------------------------------------------------

  function Cost(lines: seq<Bytes>): nat {
    if lines == [] then 0 else |lines[0]| + 1 + Cost(lines[1..])
  }

  /** Each line, and each event with one byte for every line end, is within its limit. */
  predicate WithinLimits(w: Written, spaced: bool, lim: Limits) {
    && (forall k :: 0 <= k < |LinesOf(w, spaced)| ==> |LinesOf(w, spaced)[k]| <= lim.maxLine)
    && Cost(LinesOf(w, spaced)) <= lim.maxEvent
  }

  predicate Speaking(lines: seq<Bytes>) {
    forall k :: 0 <= k < |lines| ==> lines[k] != [] && lines[k][0] != 0xEF && Valid(lines[k])
  }

  lemma {:induction false} SpeakingAccepted(lines: seq<Bytes>, more: seq<Bytes>, used: nat, first: bool, lim: Limits)
    requires Speaking(lines) && (lines == [] ==> !first)
    requires forall k :: 0 <= k < |lines| ==> |lines[k]| <= lim.maxLine
    requires used + Cost(lines) <= lim.maxEvent
    ensures Acceptable(lines + more, [], used, first, lim) <==> Acceptable(more, [], used + Cost(lines), false, lim)
    decreases |lines|
  {
    if lines == [] {
      NoneFirst(more);
    } else {
      assert (lines + more)[0] == lines[0] && (lines + more)[1..] == lines[1..] + more;
      SpeakingAccepted(lines[1..], more, used + |lines[0]| + 1, false, lim);
    }
  }

  lemma BlankAccepted(more: seq<Bytes>, used: nat, lim: Limits)
    requires used + 1 <= lim.maxEvent
    ensures Acceptable([[]] + more, [], used, false, lim) <==> Acceptable(more, [], 0, false, lim)
  {
    assert ([[]] + more)[1..] == more;
  }

  lemma {:induction false} AsciiBefore(key: Bytes, value: Bytes)
    requires Valid(value) && forall i :: 0 <= i < |key| ==> key[i] < 0x80
    ensures Valid(key + value)
    decreases |key|
  {
    if key == [] {
      NoneFirst(value);
    } else {
      assert (key + value)[1..] == key[1..] + value;
      AsciiBefore(key[1..], value);
    }
  }

  lemma {:induction false} FieldsSpeak(w: Written, spaced: bool)
    requires Writable(w, spaced)
    ensures var fields := (if w.name.Some? then [NameLine(w.name.value, spaced)] else []) + DataLines(w.lines, spaced);
            Speaking(fields) && fields != [] && LinesOf(w, spaced) == fields + [[]]
            && forall k :: 0 <= k < |fields| ==> EndsNothing(fields[k])
  {
    var space: Bytes := if spaced then [32] else [];
    if w.name.Some? {
      AsciiBefore([101, 118, 101, 110, 116, 58] + space, w.name.value);
    }
    forall k | 0 <= k < |w.lines| ensures Valid(DataLine(w.lines[k], spaced)) {
      AsciiBefore([100, 97, 116, 97, 58] + space, w.lines[k]);
    }
  }

  lemma CostSplits(a: seq<Bytes>, b: seq<Bytes>)
    ensures Cost(a + b) == Cost(a) + Cost(b)
    decreases |a|
  {
    if a == [] {
      NoneFirst(b);
    } else {
      assert (a + b)[0] == a[0] && (a + b)[1..] == a[1..] + b;
      CostSplits(a[1..], b);
    }
  }

  lemma {:induction false} EventAccepted(w: Written, more: seq<Bytes>, spaced: bool, first: bool, lim: Limits)
    requires Writable(w, spaced) && WithinLimits(w, spaced, lim)
    ensures Acceptable(LinesOf(w, spaced) + more, [], 0, first, lim) <==> Acceptable(more, [], 0, false, lim)
  {
    var fields := (if w.name.Some? then [NameLine(w.name.value, spaced)] else []) + DataLines(w.lines, spaced);
    FieldsSpeak(w, spaced);
    CostSplits(fields, [[]]);
    assert Cost([[]]) == 1;
    assert forall k :: 0 <= k < |fields| ==> LinesOf(w, spaced)[k] == fields[k];
    Associate(fields, [[]], more);
    SpeakingAccepted(fields, [[]] + more, 0, first, lim);
    BlankAccepted(more, Cost(fields), lim);
  }

  lemma {:induction false} EventsAccepted(ws: seq<Written>, spaced: bool, first: bool, lim: Limits)
    requires forall k :: 0 <= k < |ws| ==> Writable(ws[k], spaced) && WithinLimits(ws[k], spaced, lim)
    ensures Acceptable(AllLines(ws, spaced), [], 0, first, lim)
    decreases |ws|
  {
    if ws != [] {
      EventAccepted(ws[0], AllLines(ws[1..], spaced), spaced, first, lim);
      EventsAccepted(ws[1..], spaced, false, lim);
    }
  }

  lemma {:induction false} LinesEndNothing(ws: seq<Written>, spaced: bool)
    requires forall k :: 0 <= k < |ws| ==> Writable(ws[k], spaced)
    ensures forall k :: 0 <= k < |AllLines(ws, spaced)| ==> EndsNothing(AllLines(ws, spaced)[k])
    decreases |ws|
  {
    if ws != [] {
      FieldsSpeak(ws[0], spaced);
      LinesEndNothing(ws[1..], spaced);
    }
  }

  lemma {:induction false} NoMark(ws: seq<Written>, spaced: bool, ender: Bytes)
    requires forall k :: 0 <= k < |ws| ==> Writable(ws[k], spaced)
    ensures StripMark(Encode(ws, spaced, ender)) == Encode(ws, spaced, ender)
  {
    if ws != [] {
      FieldsSpeak(ws[0], spaced);
      var line := AllLines(ws, spaced)[0];
      assert line == LinesOf(ws[0], spaced)[0];
      assert Encode(ws, spaced, ender)[0] == line[0];
    }
  }

  /**
   Whatever events are written, with or without the space and with any line end, reading the bytes
   delivers exactly those events, if texts are valid and the limits hold.
   */
  lemma {:induction false} WrittenIsRead(ws: seq<Written>, spaced: bool, ender: Bytes, lim: Limits)
    requires IsEnder(ender)
    requires forall k :: 0 <= k < |ws| ==> Writable(ws[k], spaced) && WithinLimits(ws[k], spaced, lim)
    ensures var fed := Feed(Fresh, Encode(ws, spaced, ender), lim); fed.Go? && fed.out == EventsOf(ws)
  {
    var lines, s := AllLines(ws, spaced), Encode(ws, spaced, ender);
    LinesEndNothing(ws, spaced);
    BodyLines(lines, ender);
    EventsAccepted(ws, spaced, true, lim);
    AcceptedExactly(s, lim);
    NoMark(ws, spaced, ender);
    EventsRead(ws, spaced);
    FollowsStandard(s, lim);
  }
}

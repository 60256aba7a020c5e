/**
 What a Chat request says apart from the assistant's own messages, read off its JSON: message for
 message, what the frame says. The keys and texts are the protocol's, written out.
 */
module ChatReadback {
  import opened Wrappers
  import opened Sequences
  import opened Json
  import opened Model
  import opened Blocks
  import opened ToolHistory
  import opened Segments
  import opened Sayings
  import opened ChatWire

  // -- the messages a frame calls for -----------------------------------------------------------------

  /** A message that is not the assistant's, by what it must say. */
  datatype Line =
    | UserLine(parts: seq<Saying>)
    | SystemLine(x: Saying)
    | ToolLine(at: nat)
    | MediaLine(at: nat)

  predicate Blank(env: RenderEnv, x: Saying) {
    x.Spoken? && x.role == Assistant && env.names.blank(x.text)
  }

  predicate HasMedia(blocks: seq<Block>, at: nat) {
    at < |blocks| && blocks[at].content.Outcome? && blocks[at].content.result.media != []
  }

  /**
   The messages in order: a message for a user's block, one for each system text and each result.
   `owed` are media of results, which follow in messages of their own once the results end.
   */
  function Lines(env: RenderEnv, blocks: seq<Block>, says: seq<Saying>, owed: seq<Line>): seq<Line>
    decreases |says|
  {
    if says == [] then owed
    else
      var x := says[0];
      if Blank(env, x) then Lines(env, blocks, says[1..], owed)
      else if ByUser(x) then
        owed + [UserLine(says[..UserBlock(says)])] + Lines(env, blocks, says[UserBlock(says)..], [])
      else if BySystem(x) then owed + [SystemLine(x)] + Lines(env, blocks, says[1..], [])
      else if x.Observed? then
        [ToolLine(x.at)]
        + Lines(env, blocks, says[1..], if HasMedia(blocks, x.at) then owed + [MediaLine(x.at)] else owed)
      else owed + Lines(env, blocks, says[1..], [])
  }

  // -- how a message says it -----------------------------------------------------------------------------

  predicate PartSaid(env: RenderEnv, x: Saying, v: Json) {
    match x
    case Spoken(_, _, text) => IsText(v, text)
    case Displayed(_, _, m) => Shows(env, true, m, v)
    case _ => false
  }

  /** A single text stands for itself. */
  predicate LoneText(items: seq<Json>) {
    |items| == 1 && Get(items[0], "type") == Some(Str("text")) && StrOf(items[0], "text").Some?
  }

  predicate PartsSaid(env: RenderEnv, parts: seq<Saying>, items: seq<Json>) {
    |items| == |parts| && forall k :: 0 <= k < |items| ==> PartSaid(env, parts[k], items[k])
  }

  ghost predicate UserSaid(env: RenderEnv, parts: seq<Saying>, content: Json) {
    exists items :: PartsSaid(env, parts, items)
                    && content == if LoneText(items) then Str(StrOf(items[0], "text").value) else Arr(items)
  }

  predicate IsMessage(v: Json, role: string) {
    v.Obj? && v.fields.Keys == {"role", "content"} && v.fields["role"] == Str(role)
  }

  ghost predicate ToolSaid(env: RenderEnv, blocks: seq<Block>, at: nat, v: Json) {
    && v.Obj? && v.fields.Keys == {"role", "tool_call_id", "content"} && v.fields["role"] == Str("tool")
    && v.fields["tool_call_id"].Str? && ResultOf(env, blocks, at, v.fields["tool_call_id"].s)
    && v.fields["content"] == Str(Observation(env, blocks[at].content.result))
  }

  ghost predicate MediaSaid(env: RenderEnv, blocks: seq<Block>, at: nat, v: Json) {
    && IsMessage(v, "user") && v.fields["content"].Arr?
    && var items := v.fields["content"].items;
       && items != [] && (exists name :: ResultOf(env, blocks, at, name)
                                         && IsText(items[0], "[tool result media for call " + name + "]"))
       && |items| == 1 + |blocks[at].content.result.media|
       && forall k :: 0 <= k < |items| - 1 ==> Shows(env, true, blocks[at].content.result.media[k], items[k + 1])
  }

  /** The message says the line. */
  ghost predicate Reads(env: RenderEnv, blocks: seq<Block>, line: Line, v: Json) {
    match line
    case UserLine(parts) => IsMessage(v, "user") && UserSaid(env, parts, v.fields["content"])
    case SystemLine(x) =>
      IsMessage(v, "system") && BySystem(x)
      && v.fields["content"] == Str(if x.Spoken? then x.text else env.placeholder(x.media))
    case ToolLine(at) => ToolSaid(env, blocks, at, v)
    case MediaLine(at) => MediaSaid(env, blocks, at, v)
  }

  ghost predicate AllRead(env: RenderEnv, blocks: seq<Block>, lines: seq<Line>, ms: seq<Json>) {
    |lines| == |ms| && forall k :: 0 <= k < |lines| ==> Reads(env, blocks, lines[k], ms[k])
  }

  predicate IsAssistant(v: Json) {
    Get(v, "role") == Some(Str("assistant"))
  }

  /** The messages that are not the assistant's. */
  function Others(ms: seq<Json>): seq<Json> {
    if ms == [] then []
    else Others(ms[..|ms| - 1]) + if IsAssistant(ms[|ms| - 1]) then [] else [ms[|ms| - 1]]
  }

  /** Apart from the assistant's own, the messages say what the frame says, in order. */
  ghost predicate Conveys(env: RenderEnv, blocks: seq<Block>, messages: seq<Json>) {
    AllRead(env, blocks, Lines(env, blocks, FrameSays(blocks, "openai_chat_completions", false), []), Others(messages))
  }

  // -- lists ------------------------------------------------------------------------------------------------

  lemma ReadJoin(env: RenderEnv, blocks: seq<Block>, a: seq<Line>, x: seq<Json>, b: seq<Line>, y: seq<Json>)
    requires AllRead(env, blocks, a, x) && AllRead(env, blocks, b, y)
    ensures AllRead(env, blocks, a + b, x + y)
  {
  }

  lemma {:induction false} OthersJoin(a: seq<Json>, b: seq<Json>)
    ensures Others(a + b) == Others(a) + Others(b)
    decreases |b|
  {
    if b == [] {
      NoneLast(a);
    } else {
      var early, last := b[..|b| - 1], b[|b| - 1];
      OthersJoin(a, early);
      assert (a + b)[..|a + b| - 1] == a + early && (a + b)[|a + b| - 1] == last;
      Associate(Others(a), Others(early), if IsAssistant(last) then [] else [last]);
    }
  }

  lemma OthersOne(v: Json)
    ensures Others([v]) == if IsAssistant(v) then [] else [v]
  {
    assert [v][..0] == [];
  }

  /** A line is never the assistant's. */
  lemma ReadIsOther(env: RenderEnv, blocks: seq<Block>, line: Line, v: Json)
    requires Reads(env, blocks, line, v)
    ensures !IsAssistant(v)
  {
  }

  lemma {:induction false} ReadAreOthers(env: RenderEnv, blocks: seq<Block>, lines: seq<Line>, ms: seq<Json>)
    requires AllRead(env, blocks, lines, ms)
    ensures Others(ms) == ms
    decreases |ms|
  {
    if ms != [] {
      var k := |ms| - 1;
      ReadAreOthers(env, blocks, lines[..k], ms[..k]);
      ReadIsOther(env, blocks, lines[k], ms[k]);
      SplitLast(ms);
    }
  }

  // -- one segment ----------------------------------------------------------------------------------------------

  lemma {:induction false} UserRunIsBlock(env: RenderEnv, blocks: seq<Block>, format: string, segments: seq<Segment>, says: seq<Saying>)
    requires AllBear(env, blocks, format, segments, says)
    ensures UserRun(segments) == UserBlock(says)
    decreases |says|
  {
    if says != [] {
      assert Bears(env, blocks, format, segments[0], says[0]);
      if |says| > 1 {
        assert Bears(env, blocks, format, segments[1], says[1]);
        UserRunIsBlock(env, blocks, format, segments[1..], says[1..]);
      }
    }
  }

  lemma PartReads(env: RenderEnv, blocks: seq<Block>, s: Segment, x: Saying)
    requires Bears(env, blocks, CHAT, s, x) && ByUser(x)
    ensures PartSaid(env, x, ChatWire.UserPart(s))
  {
  }

  lemma {:induction false} UserReads(env: RenderEnv, blocks: seq<Block>, segments: seq<Segment>, says: seq<Saying>)
    requires AllBear(env, blocks, CHAT, segments, says)
    requires forall k :: 0 <= k < |says| ==> ByUser(says[k])
    ensures Reads(env, blocks, UserLine(says), UserMessage(segments))
  {
    var items := seq(|segments|, i requires 0 <= i < |segments| => ChatWire.UserPart(segments[i]));
    forall k | 0 <= k < |items| ensures PartSaid(env, says[k], items[k]) {
      PartReads(env, blocks, segments[k], says[k]);
    }
    assert PartsSaid(env, says, items);
  }

  lemma NoteListFirst(notes: seq<string>)
    ensures NoteList(notes) == NoteLines(notes)
    decreases |notes|
  {
    if notes != [] {
      NoteListFirst(notes[1..]);
      NoteListFront(notes);
    }
  }

  lemma {:induction false} NoteListFront(notes: seq<string>)
    requires notes != []
    ensures NoteList(notes) == "\n- " + notes[0] + NoteList(notes[1..])
    decreases |notes|
  {
    if |notes| == 1 {
      assert notes[..0] == [] && notes[1..] == [];
      assert "" + "\n- " + notes[0] == "\n- " + notes[0] + "";
    } else {
      var early, last := notes[..|notes| - 1], notes[|notes| - 1];
      NoteListFront(early);
      assert notes[1..][..|notes| - 2] == early[1..];
      var front := "\n- " + notes[0];
      Associate(front, NoteList(early[1..]), "\n- ");
      Associate(front, NoteList(early[1..]) + "\n- ", last);
    }
  }

  lemma ToolReads(env: RenderEnv, blocks: seq<Block>, s: Segment, at: nat)
    requires Bears(env, blocks, CHAT, s, Observed(at))
    ensures Reads(env, blocks, ToolLine(at), ToolMessage(s.wireId, s.content, s.notes))
  {
    NoteListFirst(s.notes);
    assert ResultOf(env, blocks, at, s.wireId);
  }

  lemma PictureShows(env: RenderEnv, m: MediaRef, r: Resolved)
    requires Pictured(env, true, m, r)
    ensures Shows(env, true, m, AttachmentPart(r))
  {
  }

  lemma {:induction false} MediaReads(env: RenderEnv, blocks: seq<Block>, s: Segment, at: nat)
    requires Bears(env, blocks, CHAT, s, Observed(at))
    ensures AllRead(env, blocks, if HasMedia(blocks, at) then [MediaLine(at)] else [],
                    HoistedMedia(s.wireId, s.attachments))
  {
    assert ResultOf(env, blocks, at, s.wireId);
    var media := blocks[at].content.result.media;
    forall k | 0 <= k < |media| ensures Shows(env, true, media[k], AttachmentPart(s.attachments[k])) {
      PictureShows(env, media[k], s.attachments[k]);
    }
  }

  // -- the walk ----------------------------------------------------------------------------------------------------

  /** The lines said so far are read, and so are the media still to follow. */
  ghost predicate SoFar(env: RenderEnv, blocks: seq<Block>, c: Chat, done: seq<Line>, owed: seq<Line>) {
    AllRead(env, blocks, done, Others(c.messages)) && AllRead(env, blocks, owed, c.hoisted)
  }

  lemma RunIsAssistant(run: AssistantRun)
    ensures AssistantMessage(run).Some? ==> IsAssistant(AssistantMessage(run).value)
  {
  }

  lemma ClosedOthers(c: Chat)
    ensures Others(Closed(c).messages) == Others(c.messages) && Closed(c).hoisted == c.hoisted
  {
    if c.run.Some? && AssistantMessage(c.run.value).Some? {
      var message := AssistantMessage(c.run.value).value;
      RunIsAssistant(c.run.value);
      OthersJoin(c.messages, [message]);
      OthersOne(message);
      NoneLast(Others(c.messages));
    }
  }

  lemma {:induction false} HoistedRead(env: RenderEnv, blocks: seq<Block>, c: Chat, done: seq<Line>, owed: seq<Line>)
    requires SoFar(env, blocks, c, done, owed)
    ensures AllRead(env, blocks, done + owed, Others(c.messages + c.hoisted))
  {
    ReadAreOthers(env, blocks, owed, c.hoisted);
    OthersJoin(c.messages, c.hoisted);
    ReadJoin(env, blocks, done, Others(c.messages), owed, c.hoisted);
  }

  lemma {:induction false} FlushedRead(env: RenderEnv, blocks: seq<Block>, c: Chat, s: Segment, done: seq<Line>,
                                       owed: seq<Line>)
    requires SoFar(env, blocks, c, done, owed)
    ensures if s.ResultSegment? then SoFar(env, blocks, Flushed(c, s), done, owed)
            else SoFar(env, blocks, Flushed(c, s), done + owed, [])
  {
    HoistedRead(env, blocks, c, done, owed);
    ClosedOthers(c);
    ClosedOthers(Chat(c.messages + c.hoisted, c.run, []));
  }

  /** A message more that says one line more. */
  lemma {:induction false} LineMore(env: RenderEnv, blocks: seq<Block>, ms: seq<Json>, done: seq<Line>, line: Line, v: Json)
    requires AllRead(env, blocks, done, Others(ms)) && Reads(env, blocks, line, v)
    ensures AllRead(env, blocks, done + [line], Others(ms + [v]))
  {
    ReadIsOther(env, blocks, line, v);
    OthersJoin(ms, [v]);
    OthersOne(v);
    ReadJoin(env, blocks, done, Others(ms), [line], [v]);
  }

  /** What is done, and what is owed, once the front of what is said has been sent. */
  function Onward(env: RenderEnv, blocks: seq<Block>, says: seq<Saying>, done: seq<Line>, owed: seq<Line>)
    : (seq<Line>, seq<Line>)
    requires says != []
  {
    var x := says[0];
    if Blank(env, x) then (done, owed)
    else if ByUser(x) then (done + owed + [UserLine(says[..UserBlock(says)])], [])
    else if BySystem(x) then (done + owed + [SystemLine(x)], [])
    else if x.Observed? then
      (done + [ToolLine(x.at)], owed + if HasMedia(blocks, x.at) then [MediaLine(x.at)] else [])
    else (done + owed, [])
  }

  function Front(says: seq<Saying>): (n: nat)
    requires says != []
    ensures 0 < n <= |says|
  {
    if ByUser(says[0]) then UserBlock(says) else 1
  }

  lemma {:induction false} LinesOnward(env: RenderEnv, blocks: seq<Block>, says: seq<Saying>, done: seq<Line>,
                                       owed: seq<Line>)
    requires says != []
    ensures var (did, owes) := Onward(env, blocks, says, done, owed);
            done + Lines(env, blocks, says, owed) == did + Lines(env, blocks, says[Front(says)..], owes)
  {
    var x := says[0];
    var (did, owes) := Onward(env, blocks, says, done, owed);
    var later := Lines(env, blocks, says[Front(says)..], owes);
    if Blank(env, x) {
    } else if ByUser(x) {
      Associate(owed, [UserLine(says[..UserBlock(says)])], later);
      Associate(done, owed + [UserLine(says[..UserBlock(says)])], later);
      Associate(done, owed, [UserLine(says[..UserBlock(says)])]);
    } else if BySystem(x) {
      Associate(owed, [SystemLine(x)], later);
      Associate(done, owed + [SystemLine(x)], later);
      Associate(done, owed, [SystemLine(x)]);
    } else if x.Observed? {
      Associate(done, [ToolLine(x.at)], later);
      NoneLast(owed);
    } else {
      Associate(done, owed, later);
    }
  }

  /** One segment of the assistant's, or one that is not sent, leaves the others as they were. */
  lemma {:induction false} QuietStep(env: RenderEnv, o: Options, c: Chat, s: Segment)
    requires match s
             case TextSegment(role, _, _, _, _) => role.Assistant?
             case MediaSegment(role, _, _) => role.Assistant?
             case ResultSegment(_, _, _, _, _) => false
             case _ => true
    ensures Others(StepOne(env, o, c, s).messages) == Others(c.messages) && StepOne(env, o, c, s).hoisted == c.hoisted
  {
    if s.MediaSegment? {
      var v := Obj(map["role" := Str("assistant"), "content" := Str(if s.media.Placeholder? then s.media.text else "")]);
      OthersJoin(c.messages, [v]);
      OthersOne(v);
      NoneLast(Others(c.messages));
    }
  }

  lemma {:induction false} SystemStep(env: RenderEnv, o: Options, blocks: seq<Block>, c: Chat, s: Segment, x: Saying,
                                      done: seq<Line>)
    requires Bears(env, blocks, CHAT, s, x) && BySystem(x)
    requires SoFar(env, blocks, c, done, [])
    ensures SoFar(env, blocks, StepOne(env, o, c, s), done + [SystemLine(x)], [])
  {
    var text := if s.TextSegment? then s.text else if s.media.Placeholder? then s.media.text else "";
    LineMore(env, blocks, c.messages, done, SystemLine(x), Obj(map["role" := Str("system"), "content" := Str(text)]));
  }

  lemma {:induction false} ResultStep(env: RenderEnv, o: Options, blocks: seq<Block>, c: Chat, s: Segment, at: nat,
                                      done: seq<Line>, owed: seq<Line>)
    requires Bears(env, blocks, CHAT, s, Observed(at)) && SoFar(env, blocks, c, done, owed)
    ensures SoFar(env, blocks, StepOne(env, o, c, s), done + [ToolLine(at)],
                  owed + if HasMedia(blocks, at) then [MediaLine(at)] else [])
  {
    ToolReads(env, blocks, s, at);
    MediaReads(env, blocks, s, at);
    LineMore(env, blocks, c.messages, done, ToolLine(at), ToolMessage(s.wireId, s.content, s.notes));
    ReadJoin(env, blocks, owed, c.hoisted, if HasMedia(blocks, at) then [MediaLine(at)] else [],
             HoistedMedia(s.wireId, s.attachments));
  }

  lemma {:induction false} UserStep(env: RenderEnv, blocks: seq<Block>, c: Chat, segments: seq<Segment>,
                                    says: seq<Saying>, done: seq<Line>)
    requires AllBear(env, blocks, CHAT, segments, says) && says != [] && ByUser(says[0])
    requires SoFar(env, blocks, c, done, [])
    ensures SoFar(env, blocks, c.(messages := c.messages + [UserMessage(segments[..UserRun(segments)])]),
                  done + [UserLine(says[..UserBlock(says)])], [])
  {
    UserRunIsBlock(env, blocks, CHAT, segments, says);
    AllByUser(says);
    UserReads(env, blocks, segments[..UserRun(segments)], says[..UserBlock(says)]);
    LineMore(env, blocks, c.messages, done, UserLine(says[..UserBlock(says)]), UserMessage(segments[..UserRun(segments)]));
  }

  lemma {:induction false} StepReads(env: RenderEnv, o: Options, blocks: seq<Block>, c: Chat, segments: seq<Segment>,
                                     says: seq<Saying>, done: seq<Line>, owed: seq<Line>)
    requires AllBear(env, blocks, CHAT, segments, says) && says != [] && SoFar(env, blocks, c, done, owed)
    ensures Taken(segments) == Front(says)
    ensures var (did, owes) := Onward(env, blocks, says, done, owed);
            SoFar(env, blocks, Step(env, o, c, segments), did, owes)
  {
    var s, x := segments[0], says[0];
    assert Bears(env, blocks, CHAT, s, x);
    UserRunIsBlock(env, blocks, CHAT, segments, says);
    FlushedRead(env, blocks, c, s, done, owed);
    if ByUser(x) {
      UserStep(env, blocks, Flushed(c, s), segments, says, done + owed);
    } else if BySystem(x) {
      SystemStep(env, o, blocks, Flushed(c, s), s, x, done + owed);
    } else if x.Observed? {
      ResultStep(env, o, blocks, Flushed(c, s), s, x.at, done, owed);
    } else {
      QuietStep(env, o, Flushed(c, s), s);
    }
  }

  lemma {:induction false} WalkReads(env: RenderEnv, o: Options, blocks: seq<Block>, c: Chat, segments: seq<Segment>,
                                     says: seq<Saying>, done: seq<Line>, owed: seq<Line>)
    requires AllBear(env, blocks, CHAT, segments, says) && SoFar(env, blocks, c, done, owed)
    ensures AllRead(env, blocks, done + Lines(env, blocks, says, owed), Others(Finished(Walk(env, o, c, segments))))
    decreases |segments|
  {
    if segments == [] {
      ClosedOthers(c);
      HoistedRead(env, blocks, Closed(c), done, owed);
    } else {
      var (did, owes) := Onward(env, blocks, says, done, owed);
      StepReads(env, o, blocks, c, segments, says, done, owed);
      LinesOnward(env, blocks, says, done, owed);
      var n := Front(says);
      WalkReads(env, o, blocks, Step(env, o, c, segments), segments[n..], says[n..], did, owes);
    }
  }

  /** A frame's Chat messages say what the frame says. */
  lemma {:induction false} MessagesConvey(env: RenderEnv, o: Options, blocks: seq<Block>)
    ensures Conveys(env, blocks, Finished(Walk(env, o, Start, SegmentsOf(env, blocks, 0, |blocks|, CHAT, false))))
  {
    var segments, says := SegmentsOf(env, blocks, 0, |blocks|, CHAT, false), FrameSays(blocks, CHAT, false);
    SegmentsBear(env, blocks, |blocks|, CHAT, false);
    WalkReads(env, o, blocks, Start, segments, says, [], []);
    NoneFirst(Lines(env, blocks, says, []));
  }
}

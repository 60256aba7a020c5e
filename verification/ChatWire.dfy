/** The Chat Completions renderer: runs of assistant segments become one message each. */
module ChatWire {
  import opened Wrappers
  import opened Json
  import opened Segments

  /** An assistant message being put together. */
  datatype AssistantRun = AssistantRun(text: string, sealed: Option<Json>, calls: seq<Json>)

  const NoRun := AssistantRun("", None, [])

  /** Messages so far, the open run, and media of results waiting to follow their group. */
  datatype Chat = Chat(messages: seq<Json>, run: Option<AssistantRun>, hoisted: seq<Json>)

  const Start := Chat([], None, [])

  datatype Options = Options(replayReasoning: bool)

  // -- messages -------------------------------------------------------------------------------

  /** The run as a message; nothing if it would carry neither content nor calls. */
  function AssistantMessage(run: AssistantRun): Option<Json> {
    var base := ResidueObject(run.sealed)["role" := Str("assistant")];
    var spoken := if run.text == "" then base else base["content" := Str(run.text)];
    var full := if run.calls == [] then spoken else spoken["tool_calls" := Arr(run.calls)];
    if "content" in full || "tool_calls" in full then Some(Obj(full)) else None
  }

  function Closed(c: Chat): Chat {
    if c.run.None? then c
    else
      var message := AssistantMessage(c.run.value);
      Chat(if message.Some? then c.messages + [message.value] else c.messages, None, c.hoisted)
  }

  function TextPart(text: string): Json {
    Obj(map["type" := Str("text"), "text" := Str(text)])
  }

  function AttachmentPart(m: Resolved): Json {
    match m
    case Shown(item) => item
    case Placeholder(text) => TextPart(text)
  }

  function UserPart(s: Segment): Json {
    if s.TextSegment? then TextPart(s.text) else if s.MediaSegment? then AttachmentPart(s.media) else Null
  }

  /** One user block as one message; a single text keeps the string form. */
  function UserMessage(parts: seq<Segment>): Json {
    var items := seq(|parts|, i requires 0 <= i < |parts| => UserPart(parts[i]));
    var content := if |items| == 1 && StrOf(items[0], "type") == Some("text") && StrOf(items[0], "text").Some?
                   then Str(StrOf(items[0], "text").value) else Arr(items);
    Obj(map["role" := Str("user"), "content" := content])
  }

  predicate IsUserPart(s: Segment) {
    (s.TextSegment? || s.MediaSegment?) && s.role.User?
  }

  /** How many segments of the same user block stand at the front. */
  function UserRun(segments: seq<Segment>): (n: nat)
    ensures n <= |segments| && (n > 0 <==> segments != [] && IsUserPart(segments[0]))
    ensures n > 0 ==> forall i :: 0 <= i < n ==> IsUserPart(segments[i]) && segments[i].block == segments[0].block
  {
    if segments == [] || !IsUserPart(segments[0]) then 0
    else if |segments| > 1 && IsUserPart(segments[1]) && segments[1].block == segments[0].block then
      1 + UserRun(segments[1..])
    else 1
  }

  function CallJson(codec: Codec, wireId: string, name: string, arguments: Json, wire: Option<Json>): Json {
    var residue := OrInsert(ResidueObject(wire), "type", Str("function"));
    var function_ := ResidueObject(if "function" in residue then Some(residue["function"]) else None);
    var sent := WireArguments(codec, if "arguments" in function_ then Some(function_["arguments"]) else None, arguments);
    Obj(residue["id" := Str(wireId)]["function" := Obj(function_["name" := Str(name)]["arguments" := Str(sent)])])
  }

  function NoteList(notes: seq<string>): string {
    if notes == [] then "" else NoteList(notes[..|notes| - 1]) + "\n- " + notes[|notes| - 1]
  }

  function ResultText(content: string, notes: seq<string>): string {
    if notes == [] then content else content + "\n\nNotes:" + NoteList(notes)
  }

  function ToolMessage(wireId: string, content: string, notes: seq<string>): Json {
    Obj(map["role" := Str("tool"), "tool_call_id" := Str(wireId), "content" := Str(ResultText(content, notes))])
  }

  function HoistedMedia(wireId: string, media: seq<Resolved>): seq<Json> {
    if media == [] then []
    else [Obj(map["role" := Str("user"),
                  "content" := Arr([TextPart("[tool result media for call " + wireId + "]")]
                                   + seq(|media|, i requires 0 <= i < |media| => AttachmentPart(media[i])))])]
  }

  function WithoutReasoning(item: Json): Option<Json> {
    if !item.Obj? then Some(item)
    else
      var rest := item.fields - {"reasoning_content"};
      if rest == map[] then None else Some(Obj(rest))
  }

  // -- the walk -------------------------------------------------------------------------------------

  predicate IsBlank(env: RenderEnv, s: Segment) {
    s.TextSegment? && s.role.Assistant? && env.names.blank(s.text)
  }

  /** Segments that go on with the open assistant message. */
  predicate StaysOpen(s: Segment) {
    (s.TextSegment? && s.role.Assistant?) || s.CallSegment? || s.SealedSegment?
  }

  function Flushed(c: Chat, s: Segment): Chat {
    var flushed := if s.ResultSegment? then c else Chat(c.messages + c.hoisted, c.run, []);
    if StaysOpen(s) then flushed else Closed(flushed)
  }

  function RunOf(c: Chat): AssistantRun {
    if c.run.Some? then c.run.value else NoRun
  }

  /** One segment that is not a user part. */
  function StepOne(env: RenderEnv, o: Options, c: Chat, s: Segment): Chat {
    match s
    case TextSegment(role, text, _, _, _) =>
      if role.Assistant? then c.(run := Some(RunOf(c).(text := RunOf(c).text + text)))
      else c.(messages := c.messages + [Obj(map["role" := Str("system"), "content" := Str(text)])])
    case MediaSegment(role, media, _) =>
      var name := if role.System? then "system" else "assistant";
      c.(messages := c.messages + [Obj(map["role" := Str(name), "content" := Str(if media.Placeholder? then media.text else "")])])
    case SealedSegment(item) =>
      var kept := if o.replayReasoning then Some(item) else WithoutReasoning(item);
      if kept.None? then c
      else c.(run := Some(if RunOf(c).sealed.None? then RunOf(c).(sealed := kept) else RunOf(c)))
    case CallSegment(wireId, name, arguments, wire) =>
      c.(run := Some(RunOf(c).(calls := RunOf(c).calls + [CallJson(env.codec, wireId, name, arguments, wire)])))
    case ResultSegment(wireId, _, content, notes, media) =>
      c.(messages := c.messages + [ToolMessage(wireId, content, notes)], hoisted := c.hoisted + HoistedMedia(wireId, media))
    case ChangeSegment(_) => c
  }

  function Taken(segments: seq<Segment>): (n: nat)
    requires segments != []
    ensures 0 < n <= |segments|
  {
    if IsUserPart(segments[0]) then UserRun(segments) else 1
  }

  /** What the front of the segments does. */
  function Step(env: RenderEnv, o: Options, c: Chat, segments: seq<Segment>): Chat
    requires segments != []
  {
    var s := segments[0];
    if IsBlank(env, s) then c
    else if IsUserPart(s) then
      var flushed := Flushed(c, s);
      flushed.(messages := flushed.messages + [UserMessage(segments[..UserRun(segments)])])
    else StepOne(env, o, Flushed(c, s), s)
  }

  function Walk(env: RenderEnv, o: Options, c: Chat, segments: seq<Segment>): Chat
    decreases |segments|
  {
    if segments == [] then c else Walk(env, o, Step(env, o, c, segments), segments[Taken(segments)..])
  }

  function Finished(c: Chat): seq<Json> {
    Closed(c).messages + c.hoisted
  }

  /** The loop as it is written. */
  method RenderChat(env: RenderEnv, o: Options, segments: seq<Segment>) returns (messages: seq<Json>)
    ensures messages == Finished(Walk(env, o, Start, segments))
  {
    var c, next := Start, 0;
    assert segments[0..] == segments;
    while next < |segments|
      invariant 0 <= next <= |segments|
      invariant Walk(env, o, c, segments[next..]) == Walk(env, o, Start, segments)
    {
      var rest := segments[next..];
      c := Step(env, o, c, rest);
      assert rest[Taken(rest)..] == segments[next + Taken(rest)..];
      next := next + Taken(rest);
    }
    assert segments[next..] == [];
    messages := Finished(c);
  }

  // -- walking piece by piece -------------------------------------------------------------------------

  /** No user message spans the seam. */
  predicate SeamFree(first: seq<Segment>, rest: seq<Segment>) {
    first != [] && rest != [] && IsUserPart(first[|first| - 1]) && IsUserPart(rest[0]) ==>
      first[|first| - 1].block != rest[0].block
  }

  lemma {:induction false} UserRunLocal(first: seq<Segment>, rest: seq<Segment>)
    requires first != [] && SeamFree(first, rest)
    ensures UserRun(first + rest) == UserRun(first)
    decreases |first|
  {
    var all := first + rest;
    if |first| > 1 {
      assert all[1..] == first[1..] + rest;
      UserRunLocal(first[1..], rest);
    }
  }

  lemma {:induction false} WalkJoins(env: RenderEnv, o: Options, c: Chat, first: seq<Segment>, rest: seq<Segment>)
    requires SeamFree(first, rest)
    ensures Walk(env, o, c, first + rest) == Walk(env, o, Walk(env, o, c, first), rest)
    decreases |first|
  {
    if first == [] {
      assert first + rest == rest;
    } else {
      var all, n := first + rest, Taken(first);
      UserRunLocal(first, rest);
      assert all[0] == first[0] && Taken(all) == n;
      assert all[..n] == first[..n] && all[n..] == first[n..] + rest;
      WalkJoins(env, o, Step(env, o, c, first), first[n..], rest);
    }
  }

  lemma WalkOne(env: RenderEnv, o: Options, c: Chat, s: Segment)
    requires !IsUserPart(s)
    ensures Walk(env, o, c, [s]) == if IsBlank(env, s) then c else StepOne(env, o, Flushed(c, s), s)
  {
    assert [s][1..] == [];
  }
}

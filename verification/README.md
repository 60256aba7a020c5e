# Causa, modelled and proved

Causa is a kernel for language-model agents. It decodes streamed answers, keeps them as blocks of a context, sends
contexts back in three wire formats, runs the tools a model calls, and repeats this until the model ends its turn.
This project models that logic in Dafny and proves what it promises over all inputs, all interleavings and whole runs.

The model has five parts.

1. **Streams.** `Mealy` is a run of any machine over input that may be cut anywhere. `Utf8`, `Sse` and `SseStandard`
   are the framing and the standard it follows, `SseText` reads back events written out as bytes, and `Utf8Scalars`
   says which bytes are text; `Decoder` puts an assembler behind it under a byte limit, and `EventsTaken` says which
   events that takes;
   `AnthropicStream`, `AnthropicStreamProof`, `AnthropicStreamEnd`, `AnthropicAssembler` and their `Chat` counterparts
   are the two assemblers, each as a reference machine, a reading of the trace that owes nothing to the machine's
   state, and a class that updates its fields in place. `AnthropicProtocol`, `AnthropicDeltas`, `AnthropicContents`,
   `ChatProtocol` and `UsageMerge` read the same traces off the JSON alone, with the names of events, blocks and fields
   written out: what may come, what is told and what is held. `ChatRetained` bounds what is held, and the `Differs`
   modules hold streams on which stream and batch parser disagree.
2. **Wire formats.** `AnthropicParse`, `ChatParse`, `ResponsesParse` and `ResponsesOutput` split a wire item into facts
   and residue, and `BatchAnswers` reads their answers off the JSON; `Conversion` makes blocks of them; `Segments` walks
   a frame; `AnthropicWire`, `ChatWire` and `ResponsesWire` render it; `Sayings` is what a frame says, block by block, and the `Readback` modules read it off the
   JSON of a request; the `Replay` modules prove what goes out again value for value, and `ChatNeighbours` what
   becomes of adjacent messages. `ToolHistory` holds the history and pairing checks, `Requests` whole requests, and
   `OfferedTools` what a request says about the tools on offer. `RoundSegments`, `ChatPairing` and `AnthropicPairing`
   say when a request still pairs up after one more round.
3. **Context edits.** `EditSpec` says which replacements take effect and what the outcome is, `EditProof` what an edit
   keeps, and `Context` is the class with the walk that validates and the pass that builds.
4. **Tool batches and the turn loop.** `ToolBatches`, `Handoff`, `Dispatch` and `Processing` are the batch under
   concurrent tasks, processors and stops; `Catalog`, `FrameGrowth`, `TurnCommit` and `TurnLoop` are whole runs,
   `TurnStory` is what a run leaves behind, round by round, and `PairedRuns` carries the pairing checks over it.
5. **Tool sets and caches.** `ToolSets` and `ToolPlan` are differences, folds and in-place rendering; `SourceCache` is
   the listing cache under concurrent refreshes; `OutputBudget` is the processor that shortens results.

How the model reads the code:

- Strings are sequences of UTF-8 code units, so a length is a number of bytes.
- JSON text is a pair of functions. Where a proof needs what was printed to be read back, it asks this of the value it
  prints and of no other; a codec that reads back every value exists (`LawfulCodec.LawfulCodecExists`). Objects are maps;
  the order in which an object lists its members is a parameter. Numbers that are not integers are known by their bits.
- Block ids are naturals drawn from a generator that never repeats. Trimming, the text form of an id, stop-reason tables,
  token estimates and the way media can be shown are parameters.
- Concurrent code is a sequence of steps: any event may come next, any task may return anything, control may say stop at
  any look. Processors, tools and the model are arbitrary functions; a processor may leave any batch behind.
- Block indexes of a stream are consecutive from zero by the code's own checks, so its maps are sequences here.
- A whole run's accounts need that no result already in the first context answers an id yet to be generated
  (`TurnCommit.NoStrayResults`): a round's results can be appended exactly when nothing before the round answers one of
  its calls (`FrameGrowth.RoundAppendsExactly`, and `FrameGrowth.StrayResultRefuses` for an input). The membership of a
  returned batch is stated for processors that keep declarations; one may empty the batch and fail.

## Findings

Each of these is a difference between what the code does and what its documentation or its other half suggests: the
input on which it shows, and exactly when it does.

- A Chat stream refuses a call that stays without a name; the batch parser accepts it
  (`ChatStreamDiffers.NamelessCallDiffers`). A Chat stream leaves out a last call cut off by the token limit even if it
  never got an id; the batch parser refuses it (`ChatStreamDiffers.LostCallDiffers`). There is no third case:
  `ChatStreamEnd.StreamEqualsBatch`.
- In an Anthropic stream, argument deltas that join to the empty string leave a call incomplete although its start
  carried its input, and the stream fails (`AnthropicStreamDiffers.EmptyArgumentsDiffer`). Stream and batch parser agree
  on a message exactly when that happens to none of its calls (`AnthropicStreamEnd.StreamEqualsBatch`).
- Answers are to come back value for value. A Chat message does exactly under the condition of
  `ChatReplay.MessageComesBack`: white space, an empty `tool_calls` and an untyped call do not come back
  (`ChatReplay.WhiteSpaceIsLost`, `ChatReplay.EmptyCallsAreLost`, `ChatReplay.UntypedCallChanges`).
- Neighbouring Chat answers become one message (`ChatNeighbours.TwoBecomeOne`), exactly when no segment between them
  closes the first, and then the second's sealed object is lost exactly when the first, or else something between them,
  had another (`ChatNeighbours.TwoAnswersSent`).
- Every request is checked for calls and results that pair up, and a run can break what it began with: a Chat answer
  that shows media after a call (`ChatPairing.PictureSplits`) and an Anthropic answer with an item that calls itself a
  result (`AnthropicPairing.SealedSplits`) make the next request fail. Exactly which answers do is
  `PairedRuns.ChatEveryFrame` and `PairedRuns.AnthropicEveryFrame`; those the Chat parser accepts never do
  (`ChatPairing.ParsedTogether`).
- An Anthropic tool use without `input` comes back with an empty one (`AnthropicReplay.MissingInputGained`), and this is
  the only change besides blank texts (`AnthropicReplay.ReplayedExactly`).
- A top-level Responses refusal comes back as text (`ResponsesReplay.RefusalChanges`); which items come back is
  `ResponsesReplay.ItemComesBack`.
- A block id keeps its meaning through every single edit, not through two: removed by one edit, it may come back
  changed by the next (`EditProof.IdMayReturnChanged`).
- Opening the batch of a committed answer cannot fail, so that interruption is unreachable (`TurnCommit.CommitModel`).

## Model

| member | source | states |
|---|---|---|
| `Mealy.CutsDoNotMatter` | crates/causa-protocol/src/translation/sse_parser/parser.rs:92-114 | Any byte machine run chunk by chunk, over every way to cut the input, ends in the state, outputs and failure of the uncut run. |
| `Sse.SseParser.Decode` | crates/causa-protocol/src/translation/sse_parser/parser.rs:99-114 | One call takes a prefix of the input and does to the parser what the byte machine does with those bytes; an event appears exactly on the last byte taken; `None` means everything was taken; after a failure, or after a clean end, input is refused as a misuse. |
| `Sse.SseParser.DecodeInner` | crates/causa-protocol/src/translation/sse_parser/parser.rs:138-169 | The loop that jumps to the next CR or LF and appends whole runs agrees with the byte-at-a-time machine, limits and error kind included. |
| `Sse.SseParser.CompleteLineNow` | crates/causa-protocol/src/translation/sse_parser/parser.rs:180-218 | A complete line is checked and applied as the reference step does: refused unless it is UTF-8, byte order mark dropped on the first line only, one space behind the colon dropped. What a line comes to, bytes written out, is `SseText.WrittenIsRead` and `SseStandard.FollowsStandard`. |
| `Sse.SseParser.Finish` | crates/causa-protocol/src/translation/sse_parser/parser.rs:121-136 | Invalid UTF-8 in the rest is undecodable, any other unfinished line or event has an unknown outcome, and only a clean boundary succeeds. |
| `Sse.SseParser.Drain` | crates/causa-protocol/src/translation/sse_parser/parser.rs:92-114 | Calling until nothing is left consumes the whole chunk and yields the machine's events for it in order, up to its first error. |
| `Sse.DrainAll` | crates/causa-protocol/src/translation/sse_parser/parser.rs:92-169 | For every byte string and every cutting of it, one parser drained chunk by chunk gives the events, the outcome and the error kind of the uncut bytes. |
| `SseStandard.FollowsStandard` | crates/causa-protocol/src/translation/sse_parser/parser.rs:138-218 | For every input the events delivered are a prefix of those of sections 9.2.5 and 9.2.6 of the WHATWG HTML standard, and all of them when the input is accepted. The reading of the standard has its own line ends, colon, leading space, byte order mark and field names, byte by byte. |
| `SseStandard.AcceptedExactly` | crates/causa-protocol/src/translation/sse_parser/parser.rs:152-183 | An input is accepted if and only if every line is UTF-8 (section 4 of RFC 3629) and every line and event is within its limit; every refusal is `Undecodable`. |
| `SseStandard.DeliveredTextIsValid` | crates/causa-protocol/src/translation/sse_parser/parser.rs:191-216 | On valid UTF-8, every delivered event name and data is valid UTF-8 again, although lines and fields were cut out bytewise. |
| `SseText.WrittenIsRead` | crates/causa-protocol/src/translation/sse_parser/parser.rs:138-218 | Events written out as bytes, field names, colons, with or without the space, and any of the three line ends, are read back exactly: the parser delivers the events that were written, in order, whenever their texts are valid and within the limits. |
| `Utf8Scalars.ValidExactly` | crates/causa-protocol/src/translation/sse_parser/parser.rs:121-183 | The bytes that pass for text are exactly the encodings of sequences of Unicode scalar values by the arithmetic of section 3 of RFC 3629. |
| `Decoder.RunIsFrameThenAssemble` | crates/causa-protocol/src/translation/streaming/decoder.rs:115-161 | Feeding each event to the assembler as soon as it is framed equals framing everything the byte limit admits and assembling afterwards: earlier deltas precede a later error and nothing follows a halt. |
| `EventsTaken.TakenExactly` | crates/causa-protocol/src/translation/streaming/decoder.rs:143-156 | Events are taken one by one until the first, by position, that the assembler refuses, that brings more deltas than the queue holds, or that brings `Done`; the run then ends in the stated way with the deltas of all events before it. |
| `Decoder.DoneOnceAndLast` | crates/causa-protocol/src/translation/streaming/decoder.rs:149-156 | If an assembler puts `Done` last among the deltas of an event, then over any run `Done` occurs at most once, is the last delta, and occurs exactly when the run finishes. |
| `Decoder.WholeRunDone` | crates/causa-protocol/src/translation/streaming/decoder.rs:103-161 | The same for whole byte runs, through framing and the limits. |
| `Decoder.StreamDecoder.Decode` | crates/causa-protocol/src/translation/streaming/decoder.rs:103-113 | Each call takes exactly the next delta off what the bytes so far and the bytes given still owe, or reports the error that is due; after an error nothing is delivered and no input is read. |
| `Decoder.StreamDecoder.Pull` | crates/causa-protocol/src/translation/streaming/decoder.rs:122-142 | The bounded view never lets more than `max_total_bytes` be consumed, so the remaining allowance cannot underflow, and the view changes no outcome. |
| `Decoder.StreamDecoder.Accept` | crates/causa-protocol/src/translation/streaming/decoder.rs:143-153 | One event's deltas are queued as a whole or refused as a whole, and the terminal flag says whether `Done` is among them. |
| `Decoder.StreamDecoder.Finish` | crates/causa-protocol/src/translation/streaming/decoder.rs:165-178 | Only a seen terminal makes the end a success; otherwise the framing error, or an unknown outcome, and the decoder is failed from then on. |
| `Decoder.DecodeAll` | crates/causa-protocol/src/translation/streaming/decoder.rs:71-178 | For every assembler and every cutting into chunks, the deltas and the outcome are those of the uncut bytes, with at most `max_total_bytes` consumed. |
| `AnthropicStreamProof.TraceAgrees` | crates/causa-protocol/src/translation/streaming/anthropic.rs:49-373 | A sequence of events is accepted if and only if the protocol, read off the trace alone, allows each next event within the limits; the state reached is the one rebuilt block by block from each block's own deltas, whatever the interleaving. |
| `AnthropicDeltas.DeltasTell` | crates/causa-protocol/src/translation/streaming/anthropic.rs:98-373 | What a legal stream delivers, event by event, is what its events say in the JSON: the text deltas joined are the texts of text starts and text pieces, the reasoning deltas those of thinking, and each call is told its own id and name and then the argument pieces of its own block, in trace order. |
| `AnthropicDeltas.CallsOwnPieces` | crates/causa-protocol/src/translation/streaming/anthropic.rs:144-236 | The `k`-th tool use of a legal trace stands in the block whose index its argument deltas bear, and those pieces joined are what the block's input is parsed from. |
| `AnthropicProtocol.AcceptedExactly` | crates/causa-protocol/src/translation/streaming/anthropic.rs:49-373 | The assembler accepts exactly the traces that keep to the protocol as written down over the JSON of the events before each one (names, indexes, types, ids, open blocks, stop reasons), with well-formed usage reports and within the output limit. |
| `AnthropicProtocol.AccountedExactly` | crates/causa-protocol/src/translation/streaming/anthropic.rs:121-208 | The bytes a trace is charged are those of its texts, ids and names, of every other member of a block as printed, of its pieces and citations, and the growth of the printed usage; a trace is accounted for exactly when every usage report is well formed. |
| `AnthropicProtocol.UsageTold` | crates/causa-protocol/src/translation/streaming/anthropic.rs:92-97 | A usage report leaves each count at the later of its values; other events leave the usage alone. |
| `AnthropicContents.BlocksTell` | crates/causa-protocol/src/translation/streaming/anthropic.rs:209-346 | After a legal trace every member of every block held is the one the block began with, with the pieces and citations the events of its index carry in order, and with its input replaced once its arguments parse and it has stopped. |
| `UsageMerge.MergedExactly` | crates/causa-protocol/src/translation/streaming/common.rs:113-185 | A usage report is accepted exactly when each count it gives is an unsigned integer and each detail object an object of such; then each named count is the later one, detail objects are merged count by count, and nothing else changes. |
| `AnthropicStreamEnd.EndAgrees` | crates/causa-protocol/src/translation/streaming/anthropic.rs:374-401 | At `message_stop`, a block with incomplete arguments is left out only if it is the last one under the token limit; anywhere else it fails the stream; otherwise `Done` is the batch parse of the kept blocks. |
| `AnthropicStreamEnd.FragmentsRebuild` | crates/causa-protocol/src/translation/streaming/anthropic.rs:209-346 | Text, thinking, signature, citation and argument pieces of a block, cut anywhere between its start and any number of deltas, put the original block together again; the block counts as incomplete exactly when it has argument deltas that come to nothing. |
| `AnthropicStreamEnd.StreamEqualsBatch` | crates/causa-protocol/src/translation/streaming/anthropic.rs:98-401 | For every message and every legal way to stream it, the batch parser accepts the message, and `message_stop` delivers exactly `Done` of its output if and only if no call has argument deltas that join to nothing. |
| `AnthropicStreamEnd.StreamIsBatchOfKept` | crates/causa-protocol/src/translation/streaming/anthropic.rs:374-401 | After any legal trace that has ended, `message_stop` delivers the batch output of the blocks that are kept if and only if the argument pieces of each of them parse; otherwise it fails. |
| `AnthropicStreamDiffers.EmptyArgumentsDiffer` | crates/causa-protocol/src/translation/streaming/anthropic.rs:231-346 | Five legal events carry a whole call with `input: {}` and one empty argument delta: the stream fails at `message_stop`, and the batch parser accepts the message. |
| `AnthropicStreamEnd.AnthropicDoneLast` | crates/causa-protocol/src/translation/streaming/anthropic.rs:49-404 | The Anthropic assembler never delivers anything after `Done` in one event. |
| `AnthropicStreamEnd.BytesToDone` | crates/causa-protocol/src/translation/streaming/decoder.rs:115-161 | From bytes to `Done`: any bytes that frame into a legal stream of a whole message, none of whose argument deltas come to nothing, make the decoder's run end with the batch parser's output as its last delta. |
| `AnthropicAssembler.Assembler.Event` | crates/causa-protocol/src/translation/streaming/anthropic.rs:49-404 | The object that updates its fields in place answers every event as the reference machine does, deltas included, and reaches the same state; what the deltas say is `AnthropicDeltas.DeltasTell`. |
| `AnthropicAssembler.Assembler.BlockStart` | crates/causa-protocol/src/translation/streaming/anthropic.rs:98-208 | A block is opened with the next index only, within the item limit, with a fresh call id, and charged field by field; otherwise the event is refused. |
| `AnthropicAssembler.Assembler.BlockDelta` | crates/causa-protocol/src/translation/streaming/anthropic.rs:209-320 | A delta goes to the open block it names, if its type takes that delta, and is answered as the machine answers it (`AnthropicDeltas.DeltasTell`); everything else is refused. |
| `AnthropicAssembler.Assembler.BlockStop` | crates/causa-protocol/src/translation/streaming/anthropic.rs:321-346 | Stopping a block parses its joined argument pieces: an object becomes the input, other JSON is refused, unparsable text marks the block incomplete. |
| `AnthropicAssembler.Assembler.MessageStop` | crates/causa-protocol/src/translation/streaming/anthropic.rs:374-401 | The end of the message, in place, agrees with the reference machine. |
| `AnthropicParse.ParseAnthropicResponse` | crates/causa-protocol/src/translation/anthropic.rs:521-623 | The one-pass loop over the content yields the items, thoughts, stop reason and usage of the recursive definition, or its first error. |
| `AnthropicParse.ParseBlocksEach` | crates/causa-protocol/src/translation/anthropic.rs:536-600 | A content array parses if and only if each block does, and each item is its own block's. |
| `AnthropicParse.JoinJoins` | crates/causa-protocol/src/translation/anthropic.rs:616-620 | The thoughts of an answer are one text, a line end between one and the next, wherever the list is divided. |
| `BatchAnswers.AnthropicReads` | crates/causa-protocol/src/translation/anthropic.rs:521-622 | An accepted Anthropic response, read off its JSON: each block becomes the item its type calls for, stop reason and usage are the response's, and the thoughts are its thinking texts in order. |
| `BatchAnswers.ChatReads` | crates/causa-protocol/src/translation/openai_chat.rs:413-528 | An accepted Chat response, read off its JSON: the one choice's finish reason, the usage if it is an object, and the message's reasoning. |
| `ChatStreamProof.TraceAgrees` | crates/causa-protocol/src/translation/streaming/chat.rs:93-249 | A sequence of chunks is accepted if and only if it is legal within the limits; the state is text, reasoning and each call's id, name and arguments joined from that index's own fragments; the deltas are known event by event. |
| `ChatStreamProof.DeltasTell` | crates/causa-protocol/src/translation/streaming/chat.rs:124-240 | The text deltas joined are the final text, and the name and argument deltas of one call index joined are that call's name and arguments. |
| `ChatProtocol.AcceptedExactly` | crates/causa-protocol/src/translation/streaming/chat.rs:93-249 | The assembler accepts exactly the traces that keep to the protocol as written down over the JSON of the events before each one (choices, types, call indexes, ids, finish reasons, queue), with well-formed usage reports and within the output limit, and delivers for each exactly what its events tell, in order. |
| `ChatProtocol.StateTells` | crates/causa-protocol/src/translation/streaming/chat.rs:118-240 | After an accepted trace the assembler holds the texts the trace said, the finish reason given, and for each call begun the id, name and arguments of the fragments that bear its index. |
| `ChatProtocol.DoneAnswers` | crates/causa-protocol/src/translation/streaming/chat.rs:46-92 | `[DONE]` is refused before a finish reason and when a call that stays lacks an id, a name or complete arguments; else it answers what the batch parser makes of the body, written out, that the texts, calls, finish reason and usage held make. |
| `ChatProtocol.UsageTold` | crates/causa-protocol/src/translation/streaming/chat.rs:240-247 | A usage report leaves each count at the later of its values; other events leave the usage alone. |
| `ChatStreamEnd.StreamEqualsBatch` | crates/causa-protocol/src/translation/streaming/chat.rs:46-92 | In every state, `[DONE]` answers what the batch parser makes of the whole message if and only if neither a call that stays lacks a name nor the last call was cut off before its id; on the first only the stream refuses, on the second only the batch parser. |
| `ChatStreamEnd.CallsParseExactly` | crates/causa-protocol/src/translation/openai_chat.rs:469-509 | The batch parser accepts the calls of a message if and only if each has an id and each that is not cut off by the token limit has complete arguments. |
| `ChatStreamDiffers.NamelessCallDiffers` | crates/causa-protocol/src/translation/streaming/chat.rs:53-76 | A legal stream of one chunk with a complete call that never gets a name: `[DONE]` fails, and the batch parser accepts the message. |
| `ChatStreamDiffers.LostCallDiffers` | crates/causa-protocol/src/translation/streaming/chat.rs:53-76 | A legal stream of one chunk whose call was cut off by the token limit before its id: `[DONE]` delivers the answer without the call, and the batch parser refuses the message. |
| `ChatStreamEnd.ChatDoneLast` | crates/causa-protocol/src/translation/streaming/chat.rs:46-249 | The Chat assembler never delivers anything after `Done` in one event. |
| `ChatStreamEnd.BytesToDone` | crates/causa-protocol/src/translation/streaming/decoder.rs:115-161 | Bytes that frame into a legal Chat stream and `[DONE]` make the decoder's run end with the batch parser's output as its last delta. |
| `ChatRetained.RetainedWithinLimit` | crates/causa-protocol/src/translation/streaming/common.rs:65-111 | Over every run, the bytes of text, reasoning, ids, names, arguments and usage held never exceed what was charged, and that never exceeds `max_output_bytes`. |
| `ChatAssembler.Assembler.OnSseEvent` | crates/causa-protocol/src/translation/streaming/chat.rs:46-249 | The object that updates its fields in place answers every framed event, `[DONE]` included, as the reference machine does. |
| `ChatAssembler.Assembler.Fragments` | crates/causa-protocol/src/translation/streaming/chat.rs:148-230 | Fragments of one event are taken in order, each under the item, identity and queue limits. |
| `ChatAssembler.Assembler.OutgoingCalls` | crates/causa-protocol/src/translation/streaming/chat.rs:53-76 | The calls that go out are all of them but a cut-off last one, or none if one that stays lacks an id, a name or complete arguments. |
| `ChatParse.ParseWireCalls` | crates/causa-protocol/src/translation/openai_chat.rs:469-509 | The loop over the calls yields one item each, except that a last call the token limit cut off is left out. |
| `AnthropicReplay.AnswerComesBack` | crates/causa-kernel/src/context/model/conversion.rs:72-148 | Parsed, converted to blocks and rendered, every content array is itself again, block for block and value for value, with only blank texts left out and a missing `input` filled in. |
| `AnthropicReplay.ContentReplays` | crates/causa-protocol/src/translation/anthropic.rs:187-291 | The same inside any frame: the answer's blocks add exactly that list, in order, right after what the blocks before them render to, and no later block moves or changes it. |
| `AnthropicReplay.ReplayedExactly` | crates/causa-protocol/src/translation/anthropic.rs:536-600 | What is sent back is the array without its blank texts, unchanged, if and only if every tool use in it carries an `input`. |
| `AnthropicReplay.ToolUseExactly` | crates/causa-protocol/src/translation/anthropic.rs:551-574 | A parsed tool use becomes a call the context takes, and comes back as it was, if and only if its `input` is an object; without `input` it comes back with an empty one. |
| `AnthropicReplay.MissingInputGained` | crates/causa-protocol/src/translation/anthropic.rs:561-565 | A tool use of type, id and name alone is accepted and sent back with an `input` it never had. |
| `AnthropicWire.RolesAlternate` | crates/causa-protocol/src/translation/anthropic.rs:625-634 | However segments follow each other, rendered messages alternate strictly in role and none is empty. |
| `AnthropicWire.RenderGrows` | crates/causa-protocol/src/translation/anthropic.rs:187-291 | Rendering more segments only adds blocks at the end. |
| `AnthropicWire.Messages.Render` | crates/causa-protocol/src/translation/anthropic.rs:188-291 | One segment, in place: the messages, the positions of sealed and of tool-change blocks, and the tools offered so far all stay what the reference rendering says; what that rendering says of a frame is `AnthropicReadback.RequestConveys`. |
| `AnthropicWire.Messages.AppendSealed` | crates/causa-protocol/src/translation/anthropic.rs:639-652 | A sealed block goes to the end of the assistant's messages and its position is recorded. |
| `AnthropicWire.Messages.RenderConversation` | crates/causa-protocol/src/translation/anthropic.rs:187-291 | The loop over the conversation equals the recursive rendering, up to the first refused tool change. |
| `AnthropicWire.Messages.Anchor` | crates/causa-protocol/src/translation/anthropic.rs:377-406 | The block found for the cache marker is neither sealed nor a tool change and no later block qualifies; none is found exactly when no block qualifies. |
| `AnthropicWire.MarkerTouchesOnePlainBlock` | crates/causa-protocol/src/translation/anthropic.rs:303-313 | Placing the marker changes one block and leaves every other block, every sealed item and every tool change as it was. |
| `AnthropicReadback.RequestConveys` | crates/causa-protocol/src/translation/anthropic.rs:146-313 | Read off the JSON, the system list and then the messages of a frame, tool changes apart, say block for block and in order what the frame says: user and system texts and media, the assistant's texts, sealed items and calls, and for each result its call's wire id, observation, notes and media in order, with `is_error` exactly when it did not succeed. The system list is what the system says before anything else. |
| `ChatReadback.MessagesConvey` | crates/causa-protocol/src/translation/openai_chat.rs:126-276 | Read off the JSON, the messages that are not the assistant's say, message for message and in order, what the frame says: a user's block as one message, a string if it is one text; each system text; each result under its call's wire id with its notes; and the results' media in messages right after the results. |
| `ResponsesReadback.InputConveys` | crates/causa-protocol/src/translation/openai_responses.rs:130-275 | Read off the JSON, the instructions are what the system says first, and the items say the rest one by one: users' blocks, system texts, the assistant's texts or recorded messages with their texts in the slots, sealed items, calls whose arguments say the facts, and each result under its call's wire id with its notes and media. |
| `Requests.RenderAnthropic` | crates/causa-protocol/src/translation/anthropic.rs:124-330 | A request goes out if and only if the frame is sendable, every in-place tool change could be placed, and something was rendered whose tool uses and results pair up; it then alternates roles, carries at most one marker among its messages, and says block for block what the frame says; every refusal is `InvalidRequest`. |
| `Requests.MarkedSends` | crates/causa-protocol/src/translation/anthropic.rs:303-313 | The marker, placed after the pairing check, keeps the pairing and the roles. |
| `Requests.AnswerIsSentBack` | crates/causa-protocol/src/translation/anthropic.rs:124-291 | Whenever the conversation of a frame renders, a committed answer is in it, whole and in order, after what preceded it. |
| `Requests.RenderChat` | crates/causa-protocol/src/translation/openai_chat.rs:106-284 | A Chat request goes out if and only if the frame is sendable and the rendered messages are paired and not empty; it then carries those messages and the current tools, and apart from the assistant's own its messages say what the frame says. |
| `Requests.ChatAnswerIsSentBack` | crates/causa-protocol/src/translation/openai_chat.rs:126-276 | The same for the messages of a Chat request, when the answer shows anything and stands between segments that are not the assistant's. |
| `Requests.RenderResponses` | crates/causa-protocol/src/translation/openai_responses.rs:109-280 | A Responses request goes out if and only if the frame is sendable and renders to some item; its instructions and items then say what the frame says. |
| `Requests.ResponsesAnswerIsSentBack` | crates/causa-protocol/src/translation/openai_responses.rs:130-275 | A committed output stands in the input items of every Responses request, whole and in order, right after what preceded it. |
| `Requests.AnthropicOffersCurrent` | crates/causa-protocol/src/translation/anthropic.rs:275-291 | Whoever reads an Anthropic request's tool list and then the tool changes among its messages, decoding each block, is offered the frame's current tools under every name, whatever the placement. |
| `Requests.ResponsesOffersCurrent` | crates/causa-protocol/src/translation/openai_responses.rs:259-273 | The tool list of a Responses request followed by the lists of its `additional_tools` items is exactly the current tools, in order. |
| `OfferedTools.FrameShows` | crates/causa-protocol/src/translation/context_frame.rs:508-514 | The segments of a frame hold, in order, exactly the tool changes after the first when changes show in place, and none otherwise. |
| `OfferedTools.ConversationTells` | crates/causa-protocol/src/translation/anthropic.rs:275-291 | The tool-change blocks of a rendered conversation are those of its changes, in order, each made against what is offered at its place, and what is offered at the end is the fold of them. |
| `OfferedTools.ChangeReadBack` | crates/causa-protocol/src/translation/anthropic.rs:413-442 | A removal or addition block says exactly the change it was made from. |
| `OfferedTools.WalkLists` | crates/causa-protocol/src/translation/openai_responses.rs:259-273 | The items a Responses walk adds for tool changes list exactly the tools the changes add, in order. |
| `Requests.PlanFor` | crates/causa-protocol/src/translation/context_frame.rs:621-665 | Choosing between a folded list and in-place changes, with the scan over names, is the plan the theorems are about. |
| `ChatReplay.MessageComesBack` | crates/causa-protocol/src/translation/openai_chat.rs:335-346 | Of all messages the parser accepts, exactly these come back value for value: assistant messages with content or calls, whose text is not only white space, whose `tool_calls`, if present, holds calls, and whose calls are typed and complete. |
| `ChatReplay.MessageReplays` | crates/causa-protocol/src/translation/openai_chat.rs:126-276 | Inside any frame, every committed answer that shows anything and stands between segments that are not the assistant's is sent as exactly the one message its items are put together to, after everything before it; one that shows nothing leaves the walk where it was. |
| `ChatReplay.CallComesBack` | crates/causa-protocol/src/translation/openai_chat.rs:225-243 | A complete call split into facts and residue and rebuilt is the same object, original arguments string included, if and only if it has a `type`; otherwise it gains one. |
| `ChatReplay.CallSendsFacts` | crates/causa-protocol/src/translation/openai_chat.rs:225-243 | Edited or not, a call is sent with its own id and name and with arguments that parse to its facts, whatever the recorded residue says. |
| `ChatReplay.SentCallsExactly` | crates/causa-protocol/src/translation/openai_chat.rs:225-243 | The calls of a message come back as they were if and only if each of them does. |
| `ChatReplay.EmptyCallsAreLost` | crates/causa-protocol/src/translation/openai_chat.rs:340-344 | A message with an empty `tool_calls` array is accepted and sent back without it. |
| `ChatReplay.WhiteSpaceIsLost` | crates/causa-protocol/src/translation/openai_chat.rs:136-147 | A message of white space alone is accepted and not sent back. |
| `ChatReplay.UntypedCallChanges` | crates/causa-protocol/src/translation/openai_chat.rs:225-228 | A message whose call has no `type` is accepted and does not come back. |
| `ChatNeighbours.NeighboursMerge` | crates/causa-protocol/src/translation/openai_chat.rs:126-276 | Two committed answers with nothing between them leave one open message: their texts and their calls one after the other, and one sealed object. |
| `ChatNeighbours.TwoBecomeOne` | crates/causa-protocol/src/translation/openai_chat.rs:126-276 | Any two plain messages, each of which comes back alone, become one message of both texts when they are neighbours. |
| `ChatNeighbours.OpenUntilClosed` | crates/causa-protocol/src/translation/openai_chat.rs:151-161 | An open assistant message stays open over more segments if and only if none of them is one that closes it, so two answers merge exactly when nothing between them does. |
| `ChatNeighbours.TwoAnswers` | crates/causa-protocol/src/translation/openai_chat.rs:126-276 | Two committed answers in a frame, any segments between them: the second goes into the first's message if and only if none of those segments closes it, and that message then holds the texts and calls of both and of what stands between; otherwise the first's message is sent before the second's is begun. |
| `ChatNeighbours.TwoAnswersSent` | crates/causa-protocol/src/translation/openai_chat.rs:126-276 | What goes out for them before a segment that is not the assistant's: one message, or the first's and later the second's; the one message has the second's sealed object if and only if neither the first nor anything between has another. |
| `ChatWire.RenderChat` | crates/causa-protocol/src/translation/openai_chat.rs:126-276 | The loop with its open run and its waiting result media equals the recursive walk. |
| `ChatWire.WalkJoins` | crates/causa-protocol/src/translation/openai_chat.rs:126-276 | Two stretches of segments that share no user message render one after the other as they render together. |
| `ResponsesReplay.CallComesBack` | crates/causa-protocol/src/translation/openai_responses.rs:225-235 | A function call item with complete arguments is rebuilt value for value from its facts and residue. |
| `ResponsesReplay.MessageComesBack` | crates/causa-protocol/src/translation/openai_responses.rs:334-358 | Of all parsed message items, exactly the assistant's messages whose text slots all hold text come back value for value, each text in its own slot among the other parts. |
| `ResponsesReplay.ItemComesBack` | crates/causa-protocol/src/translation/openai_responses.rs:432-553 | Of all output items the parser accepts, exactly these come back value for value: spoken messages, complete calls, and every other item but a refusal. |
| `ResponsesReplay.OutputComesBack` | crates/causa-protocol/src/translation/openai_responses.rs:432-553 | Of all outputs the parser accepts, exactly those of such items come back as the list they were. |
| `ResponsesReplay.RefusalIsText` | crates/causa-protocol/src/translation/openai_responses.rs:540-545 | A top-level refusal is sent back as an assistant message of its text, or not at all when it has none. |
| `ResponsesReplay.RefusalChanges` | crates/causa-protocol/src/translation/openai_responses.rs:540-545 | A refusal item that says `no` is accepted and comes back as another item. |
| `ResponsesReplay.ItemReplays` | crates/causa-protocol/src/translation/openai_responses.rs:130-275 | Inside any frame, the block of an item of an answer adds exactly what that item is sent as, after what came before. |
| `ResponsesReplay.OutputReplays` | crates/causa-protocol/src/translation/openai_responses.rs:130-275 | An output, parsed, converted to blocks and committed anywhere in a frame, adds exactly what its items are sent as, and the rest of the frame leaves it there. |
| `ResponsesWire.RenderInput` | crates/causa-protocol/src/translation/openai_responses.rs:130-275 | The loop, which skips over the segments a message item takes, equals the recursive walk. |
| `ResponsesWire.WalkJoins` | crates/causa-protocol/src/translation/openai_responses.rs:135-275 | Two stretches that share no message render one after the other as they render together. |
| `ResponsesOutput.ParseResponsesOutput` | crates/causa-protocol/src/translation/openai_responses.rs:387-588 | The parser's checks and its loop yield the recursive definition: status first, then items in order up to the first error. |
| `ResponsesOutput.StopReasonTells` | crates/causa-protocol/src/translation/openai_responses.rs:555-568 | An accepted body stops with a refusal if and only if its status says so or an item refuses; it never ends the turn while it calls a tool, which the runner would refuse to commit. |
| `BatchAnswers.ResponsesReads` | crates/causa-protocol/src/translation/openai_responses.rs:387-588 | An accepted Responses body, read off its JSON: the status, behind a dot the reason it is incomplete, the usage, and the summaries of its reasoning items in order, or their raw reasoning where there is no summary. |
| `BatchAnswers.ResponsesRefusedAs` | crates/causa-protocol/src/translation/openai_responses.rs:387-440 | A body is refused as the provider's failure exactly when its status says `failed`, as an unknown outcome when its status has none, and else only because it cannot be decoded. |
| `ResponsesOutput.CallsAreKept` | crates/causa-protocol/src/translation/openai_responses.rs:482-509 | The number of calls in the answer is that in the body, less one exactly when the last item is a call with incomplete arguments, which is accepted only under the token limit. |
| `Segments.ArgumentsAlwaysParse` | crates/causa-protocol/src/translation/context_frame.rs:328-335 | What is sent for arguments always parses to the facts, and is the provider's own string whenever that still says the same. |
| `Segments.LookupNeverFails` | crates/causa-protocol/src/translation/context_frame.rs:497-501 | In a frame that passed the history check every result finds the wire id of its call, so the lookup's `expect` cannot fail. |
| `Segments.Normalize` | crates/causa-protocol/src/translation/context_frame.rs:393-520 | The walk over a frame equals the block-by-block definition. |
| `Segments.SegmentsJoin` | crates/causa-protocol/src/translation/context_frame.rs:417-517 | The segments of a stretch of blocks are those of its parts, one after the other. |
| `Sayings.SegmentsBear` | crates/causa-protocol/src/translation/context_frame.rs:393-520 | The segments of a frame are, one for one and in order, what its blocks say: every non-empty text, every medium, own-format sealed item, call and result, and every later tool change shown in place, with its role, its block's provider fields, and for a result its call's wire id, status, observation, notes and media. |
| `RoundSegments.RoundAdds` | crates/causa-protocol/src/translation/context_frame.rs:393-520 | A round adds to a frame's segments those of its answer and then one for each result, under the wire ids of the answer's calls, each once; what was there stays. |
| `Conversion.ConvertedFacts` | crates/causa-kernel/src/context/model/conversion.rs:72-148 | Blocks come in the order of the ids, all of a kind a model may produce; an answer that ends the turn declares no call and a tool use declares at least one. |
| `Conversion.Convert` | crates/causa-kernel/src/context/model/conversion.rs:72-148 | The loop that consumes ids equals the recursive definition, errors included. |
| `ToolHistory.ValidateFrame` | crates/causa-protocol/src/translation/tool_history.rs:15-99 | Accepts exactly the frames in which every block may follow the blocks before it and no call is left open. |
| `Sayings.SendableExactly` | crates/causa-protocol/src/translation/tool_history.rs:15-99 | The history check lets through exactly the frames in which, position by position, calls are named and go by names of their own, every result answers a call before it, no call has two and each has one in the end, tools change only when none is open, and only the assistant has sealed parts. |
| `ToolHistory.ValidateChat` | crates/causa-protocol/src/translation/tool_history.rs:101-125 | Accepts exactly the lists where each message's call ids are answered, each once and nothing else, by the tool messages right after it. |
| `ToolHistory.ValidateAnthropic` | crates/causa-protocol/src/translation/tool_history.rs:127-168 | Accepts exactly the lists where each message's tool uses are answered once each by the results that begin the next user message, and results and uses stand nowhere else. |
| `ChatPairing.RoundKeepsPaired` | crates/causa-protocol/src/translation/tool_history.rs:101-125 | If a frame's Chat messages pass the pairing check, those after a whole round do if and only if the answer, rendered after the frame, closes no message that has calls. |
| `ChatPairing.ParsedTogether` | crates/causa-protocol/src/translation/openai_chat.rs:126-276 | An answer the Chat parser accepted always passes: after its round the messages pair up again. |
| `ChatPairing.PictureSplits` | crates/causa-protocol/src/translation/openai_chat.rs:180-206 | An answer that shows a picture after a call: a whole round, after which the messages no longer pair up. |
| `AnthropicPairing.RoundKeepsPaired` | crates/causa-protocol/src/translation/tool_history.rs:127-168 | If a frame's Anthropic conversation passes the pairing check, the one after a whole round does if and only if each call of the answer shows as a tool use and nothing else in the answer is a use or a result. |
| `AnthropicPairing.ChangeKeepsPaired` | crates/causa-protocol/src/translation/anthropic.rs:413-442 | A tool change after a user's message, shown in place or not, leaves the check as it was. |
| `AnthropicPairing.SealedSplits` | crates/causa-protocol/src/translation/anthropic.rs:187-291 | An answer with a sealed item that calls itself a tool result: a whole round, after which the conversation no longer passes. |
| `EditSpec.EffectiveExactly` | crates/causa-kernel/src/context/material/state/edit.rs:190-197 | The replacements that take effect are exactly those that no later one meets, once each, where two meet if some position lies in both, an insertion point lies in the other's range, or two insertion points are the same; their starts strictly increase and their ranges are disjoint. |
| `EditSpec.ConflictIsMeeting` | crates/causa-kernel/src/context/material/state/edit.rs:259-266 | The test for a conflict is exactly whether the two replacements meet, said by positions; ranges that only touch do not. |
| `EditSpec.OrderedTakeEffect` | crates/causa-kernel/src/context/material/state/edit.rs:190-197 | Replacements given in order, none reaching into the next, all take effect. |
| `EditProof.ForwardIsRightToLeft` | crates/causa-kernel/src/context/material/state/edit.rs:143-161 | Building the outcome from the left in one pass equals splicing the effective replacements from right to left. |
| `EditProof.AcceptedExactly` | crates/causa-kernel/src/context/material/state/edit.rs:174-245 | An edit is accepted exactly when every range lies within the material, what takes effect and what is appended reuses no id for another block, and no id occurs twice in the outcome; the outcome is then the replacements spliced in and the blocks appended. |
| `EditProof.EditKeepsIdentity` | crates/causa-kernel/src/context/material/state/edit.rs:199-257 | After an accepted edit ids are unique, and an id present before and after denotes the same block, kept, moved, or removed and put back. |
| `EditProof.ReachableContexts` | crates/causa-kernel/src/context/material/state/value.rs:28-39 | After any sequence of accepted and refused edits from nothing, ids are unique and the last edit kept identities. |
| `EditProof.IdMayReturnChanged` | crates/causa-kernel/src/context/material/state/edit.rs:105-111 | Two edits that together change what an id denotes: identity is kept by one edit, not across edits. |
| `Context.Context.FromBlocks` | crates/causa-kernel/src/context/material/state/value.rs:35-39 | Imports exactly the material whose ids are unique; on refusal everything is handed back. |
| `Context.Context.ValidateEdit` | crates/causa-kernel/src/context/material/state/edit.rs:174-245 | The walk that only looks at ids accepts and refuses exactly as the sequence that would be built demands, with the same first error. |
| `Context.Context.ChooseEffective` | crates/causa-kernel/src/context/material/state/edit.rs:190-197 | Retaining and sorting indices in place yields the effective replacements of the definition, equal starts in order of arrival. |
| `Context.Context.CheckUnique` | crates/causa-kernel/src/context/material/state/edit.rs:213-242 | The first repeated id found while walking is the first repeated id of the outcome. |
| `Context.Context.Build` | crates/causa-kernel/src/context/material/state/edit.rs:143-159 | The one-pass construction yields the spliced blocks; its cursor never runs past the original, so the `expect`s cannot fail. |
| `Context.Context.Apply` | crates/causa-kernel/src/context/material/state/edit.rs:112-163 | Either the whole edit happens, giving the spliced blocks and the appended ones, or the context is unchanged and all input comes back with the reason. |
| `ToolBatches.ResolvedSound` | crates/causa-kernel/src/ports/batch.rs:174-190 | A result that is not refused keeps every invariant of the batch. |
| `ToolBatches.ResolvedView` | crates/causa-kernel/src/ports/batch.rs:174-190 | Although entries are swapped, resolving changes one declaration's entry and no other, and puts its earlier notes first. |
| `ToolBatches.ToolBatch.New` | crates/causa-kernel/src/ports/batch.rs:73-89 | A batch opens exactly for distinct declarations, all pending. |
| `ToolBatches.ToolBatch.Validate` | crates/causa-kernel/src/ports/batch.rs:125-169 | Accepts exactly the sound batches, and a refusal names something true of the batch. |
| `ToolBatches.ToolBatch.ResolveAt` | crates/causa-kernel/src/ports/batch.rs:174-228 | Installs a result or refuses it for the stated reason; a refused one changes nothing and an accepted one keeps the batch sound. |
| `ToolBatches.ToolBatch.IntoResults` | crates/causa-kernel/src/ports/batch.rs:231-252 | Gives out the results of exactly the complete sound batches, in entry order. |
| `Handoff.TransitionTransitive` | crates/causa-runtime/src/processors.rs:102-136 | What the transition check accepts between neighbours it accepts across them, per phase. |
| `Handoff.ChainKeeps` | crates/causa-runtime/src/processors.rs:102-136 | Any chain of accepted handoffs, checked pairwise, is one accepted handoff: members, results, statuses, frozen inputs and earlier notes survive it. |
| `Handoff.ProcessPhase` | crates/causa-runtime/src/processors.rs:13-70 | For arbitrary processors, a phase over a sound batch ends in exactly one of these ways, and says which: all processors finished and each handoff was accepted, so that the whole change is one accepted handoff; control was seen to stop before one of them; or one of them was cut short, failed, left a faulty batch or broke the history, all before it having passed. The batch is what those that ran made of it. |
| `Dispatch.Resolve` | crates/causa-runtime/src/executor/collection.rs:96-131 | The search for an unused result id ends with any generator that does not repeat; the result is recorded if and only if the call is pending and the result is its own, and otherwise nothing changed and the error says which of the two failed. |
| `Dispatch.RejectUnbound` | crates/causa-runtime/src/executor/processing.rs:68-92 | It cannot fail; afterwards every pending call names a bound tool, exactly the unbound pending calls have a rejected result of their own, holding the host's rejection, and everything else is as it was; rejecting is itself an accepted handoff. |
| `Dispatch.AnsweredFirst` | crates/causa-runtime/src/executor/collection.rs:49-65 | The answer kept for a call is what its own task returned, in the first event that brought a result of its own; a call has one if and only if there is such an event. |
| `Dispatch.Collect` | crates/causa-runtime/src/executor/collection.rs:25-65 | Under every order of starts, results, foreign results and stops, the calls started and the results accepted are exactly those of the events taken, accepted results are in the batch, and the end has its cause: everything answered, a stop seen or the events run out with something unanswered, or the last event, and none before it, bringing a result of another call. |
| `Dispatch.Settle` | crates/causa-runtime/src/executor/collection.rs:68-90 | Settling what was started and not accepted cannot fail, so its `expect` cannot; it leaves accepted results behind any notes already there, gives each call started and not accepted a result of its own that says unobserved and that the batch was stopped, and leaves the rest as it was. |
| `Dispatch.DispatchCalls` | crates/causa-runtime/src/executor/collection.rs:18-92 | The whole of it: on success every call that was pending is completed with the result its own task returned first; otherwise the settlement above over the calls started by the events taken, unobserved outcomes included, with the cause of the end, for every interleaving. |
| `Processing.Process` | crates/causa-runtime/src/executor/processing.rs:18-65 | Processing that succeeds is a rejection of unbound calls, a before phase, another rejection, a full dispatch and an after phase on a sound, fresh batch; exactly a batch that is not sound and fresh is refused untouched; every interruption has its cause in control, in a processor or in the events taken; interrupted at dispatch, accepted results stay, started calls without one are unknown and the others pending; processors that keep declarations leave them all in the batch however it ends. |
| `Processing.ProcessedContract` | crates/causa-runtime/src/executor/processing.rs:18-65 | Then each declaration has one result of its own, whose notes are those before dispatch, then the tool's, then later ones; a call that was pending has the status of what its task returned, its input is the dispatched one, and a call rejected before dispatch was never sent. |
| `Catalog.Bind` | crates/causa-runtime/src/executor/catalog.rs:31-78 | A bound catalog holds every static and listed tool in order, each name once, with exactly those names as targets; a refusal names a changed static name, a failed listing, a clash among the tools, or a stop that control did give. |
| `FrameGrowth.ValidateAppend` | crates/causa-kernel/src/context/material/tool_results.rs:40-71 | Accepts exactly results that answer declared calls nobody answered yet, each once; a refusal says which it was. |
| `FrameGrowth.RoundKeepsSendable` | crates/causa-runtime/src/driver/commit.rs:21-114 | A model's blocks with fresh wire ids, followed by results for exactly its calls, keep a sendable frame sendable. |
| `FrameGrowth.ChangeKeepsSendable` | crates/causa-runtime/src/driver/commit.rs:118-140 | Recording a tool change keeps a sendable frame sendable. |
| `FrameGrowth.AccountedRound` | crates/causa-runtime/src/driver/commit.rs:81-114 | If every earlier call of the run had exactly one result, it still does after a round's declarations and results. |
| `FrameGrowth.RoundAppendsExactly` | crates/causa-kernel/src/context/material/tool_results.rs:40-71 | One result for each call of a round can be appended if and only if nothing before the round answers one of its calls. |
| `FrameGrowth.StrayResultRefuses` | crates/causa-kernel/src/context/material/tool_results.rs:40-71 | A result already in the context for an id that a call then gets keeps every result of that call out. |
| `TurnCommit.CommitToolChange` | crates/causa-runtime/src/driver/commit.rs:118-140 | Appends nothing or one change, after which the context offers the bound tools under every name; refused, nothing is appended, and the context would not take that change. |
| `TurnCommit.CommitModel` | crates/causa-runtime/src/driver/commit.rs:21-79 | Appends exactly the blocks the answer converts to and opens a batch of exactly its declarations, or appends nothing because the answer does not convert or the context would not take its blocks. |
| `TurnCommit.CommitTools` | crates/causa-runtime/src/driver/commit.rs:81-114 | Appends all results or none, only where they may be appended, and names the first whose outcome was never observed; a refusal says what is wrong with the results. |
| `TurnLoop.RunBatch` | crates/causa-runtime/src/driver/cycle.rs:190-243 | A batch is either left to the caller, holding the round's calls with none answered in the context and the processing error or refusal that kept them out, or all results of its processing are in the context. |
| `TurnLoop.RunCalls` | crates/causa-runtime/src/driver/cycle.rs:155-195 | Calls are counted before anything runs; over the limit, the batch is returned as it was opened. |
| `TurnLoop.RunRound` | crates/causa-runtime/src/driver/cycle.rs:21-250 | One round asks the model at most once, with the context and at most one tool change that makes it offer the bound tools; its reply's blocks and the results of the calls, as processed, are what it leaves; and whatever ends the run there is borne out: a catalog error by that round's tools, a failed call or unusable answer by the gateway's reply, a refusal by what could not be appended, a processing error by the batch, a stop by control. |
| `TurnLoop.RunLoop` | crates/causa-runtime/src/driver/cycle.rs:11-254 | Over a whole run the log tells everything: each frame is what the round before it left plus at most a tool change, each reply is the gateway's to that frame, each round's blocks are those of the reply and its results those of its processed calls, and the result is borne out by the last round, by control or by a limit. At most `max_model_rounds` questions; calls run only while the total stays within `max_tool_calls`, and the run stops for that reason exactly when the total exceeds it; without a returned batch every call the run appended has exactly one result, with one it is the last round's calls, none answered; from a sendable context, each frame the model saw is sendable if its own tools are named and the rounds before it reused no call id. |
| `PairedRuns.ChatEveryFrame` | crates/causa-runtime/src/driver/cycle.rs:11-254 | If the first frame of a run passes the Chat pairing check, every frame of the run does if and only if no answer in between closes a message that has calls before it ends. |
| `PairedRuns.AnthropicEveryFrame` | crates/causa-runtime/src/driver/cycle.rs:11-254 | If the first frame of a run passes the Anthropic pairing check, every frame of the run does if and only if in each answer the calls, and nothing else, show as tool uses and nothing shows as a result. |
| `ToolSets.BetweenPatches` | crates/causa-kernel/src/context/tools.rs:75-113 | The difference of two sets with unique names, applied to the first, offers exactly what the second does. |
| `ToolSets.EmptyIsSame` | crates/causa-kernel/src/context/tools.rs:75-97 | The difference is empty if and only if both offer the same definition, or none, under every name. |
| `ToolSets.ChangeRecorded` | crates/causa-kernel/src/context/tools.rs:116-124 | Appending the difference to the bound tools makes the context's current tools the bound ones. |
| `ToolSets.ApplyFinds` | crates/causa-kernel/src/context/tools.rs:100-113 | A change speaks of each name alone: added last, else removed, else as before. |
| `ToolSets.ApplyKeepsUnique` | crates/causa-kernel/src/context/tools.rs:100-113 | Names stay unique under any change. |
| `ToolSets.ApplyTo` | crates/causa-kernel/src/context/tools.rs:100-113 | The update in place equals the definition. |
| `ToolSets.FoldTools` | crates/causa-kernel/src/context/tools.rs:116-124 | The loop over a context's changes equals the fold. |
| `ToolPlan.ChangeBlocksMeanChange` | crates/causa-protocol/src/translation/anthropic.rs:413-442 | The removals and additions shown for one change mean that change, whatever was offered before it. |
| `ToolPlan.InPlaceMeansFold` | crates/causa-protocol/src/translation/anthropic.rs:413-442 | Reading a declaration and then the removals and additions of all later changes, each made against what is offered at its place, gives the folded tools under every name. |
| `ToolPlan.AdditiveMeansAppend` | crates/causa-protocol/src/translation/context_frame.rs:621-665 | When only unused names are added, the declaration followed by the additions is the current list, in order. |
| `ToolPlan.PlanMeansCurrent` | crates/causa-protocol/src/translation/context_frame.rs:621-665 | For every frame and placement, the list chosen is the current tools, or the declaration from which the later changes lead to them. |
| `ToolPlan.ScanAdditions` | crates/causa-protocol/src/translation/context_frame.rs:635-660 | The growing list of names accepts exactly the changes that add only names nobody used before. |
| `SourceCache.AlwaysSound` | crates/causa-runtime/src/executor/source.rs:32-74 | In every world reachable by any interleaving of calls, failures, stops and version moves, a stored listing is the catalog of its version and was published by the refresh that began last. |
| `SourceCache.HitsAreCurrent` | crates/causa-runtime/src/executor/source.rs:36-44 | Every hit returns the catalog of the version it observed. |
| `SourceCache.FailedRefreshHidesListing` | crates/causa-runtime/src/executor/source.rs:45-60 | After the refresh that began last has failed, was stopped, or saw the version move, nothing is stored. |
| `SourceCache.PublishedStays` | crates/causa-runtime/src/executor/source.rs:62-73 | Until another refresh begins, a published listing stays through every step of any call, and a call that observes its version hits it. |
| `SourceCache.StoredExactly` | crates/causa-runtime/src/executor/source.rs:36-73 | In every reachable world something is stored exactly when the refresh that began last has fetched a listing at the version it observed, and then it is that listing. |
| `SourceCache.MovedOnMisses` | crates/causa-runtime/src/executor/source.rs:36-48 | Once the source has moved on, what is stored answers no call that reads the new version. |
| `SourceCache.AnswersAreTimely` | crates/causa-runtime/src/executor/source.rs:32-74 | In every run a call's version is the source's own at the step at which the call read it, and what it fetches is a listing the source had between that step and the second reading. |
| `SourceCache.DynamicEntry.Begin` | crates/causa-runtime/src/executor/source.rs:36-48 | The first critical section: a hit for the observed version, or the old listing hidden and this refresh the latest. |
| `SourceCache.DynamicEntry.Store` | crates/causa-runtime/src/executor/source.rs:61-73 | The second: stored if and only if the version held still and no later refresh began. |
| `OutputBudget.Search` | crates/causa-runtime/examples/media_feedback/output_budget.rs:152-176 | For every estimate, one that is not monotone included, the search and the step down end with a length that fits, or report that keeping nothing does not fit; where shorter always fits too, no longer length fits. |
| `OutputBudget.FitsExactly` | crates/causa-runtime/examples/media_feedback/output_budget.rs:75-108 | A result fits exactly when every medium can be estimated and the estimate of the text with its notes as they are shown, and of the media, stays within the budget. |
| `OutputBudget.GrowsByOne` | crates/causa-runtime/examples/media_feedback/output_budget.rs:223-234 | Keeping one more character, short of all of them, adds exactly that character around the notice. |
| `OutputBudget.BuiltInIsDownward` | crates/causa-runtime/examples/media_feedback/output_budget.rs:68-74 | Under the estimate of a quarter of the bytes, whatever fits still fits when fewer characters are kept. |
| `OutputBudget.LongestKept` | crates/causa-runtime/examples/media_feedback/output_budget.rs:152-190 | Under that estimate, once some length fits and the whole text does not, every shorter length fits, so what the search finds is the longest. |
| `OutputBudget.Shorten` | crates/causa-runtime/examples/media_feedback/output_budget.rs:140-216 | A result that is changed fits its budget and refers to where its serialised original was stored, or the call fails because nothing would fit or storing failed; id, status, notes and media are untouched; with the built-in estimate no longer text would fit. |
| `OutputBudget.ProcessResults` | crates/causa-runtime/examples/media_feedback/output_budget.rs:124-216 | Results are rewritten in place in order, up to the first that cannot fit; all entries from there on are as they were. |
| `OutputBudget.BudgetIsAccepted` | crates/causa-runtime/examples/media_feedback/output_budget.rs:124-216 | What it leaves is sound and an after-phase handoff the transition check accepts. |

## Left out

- HTTP, timers, tracing, observers, MCP transport and file and asset stores: only their outcomes appear, as arbitrary results.
- The streaming assembler for Responses: its `events` and `content` modules are not part of this model; parsing and rendering are.
- Error texts, event positions, error codes and the split of a provider's own errors into kinds: one kind stands for them.
- Stop-reason tables, usage arithmetic, media classification and generation options: parameters, or fields of the body that are not modelled.
- `merge_extra_body`, output schemas, retries and gateway builders: simpler than what is modelled.
- The `ContextEdit` builder, which only collects the arguments of `apply`; context preparers, which a run here does not have.
- Machine-word overflow in counters: limits are compared on naturals, which is what the checked and saturating additions guard.
- The rejection of zero limits when a stream decoder is made.
- Chat replay with reasoning replay switched off, which only removes `reasoning_content` on purpose.
- Why a handoff was refused: the transition check is modelled as accepted or refused, and where it looks first is not.
- Context.Context.Apply: does not model the moves of values out of the argument vectors; blocks are values here.
- Dispatch.Collect: the schedule is finite, so a task that never returns is one the caller stops.

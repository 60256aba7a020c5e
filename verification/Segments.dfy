/** The walk every renderer shares: a frame as an ordered list of segments. */
module Segments {
  import opened Wrappers
  import opened Sequences
  import opened Json
  import opened Model
  import opened Blocks
  import opened ToolSets
  import opened ToolHistory

  /** The JSON library, the text tests of the history checks, and how media can be shown, if at all. */
  datatype RenderEnv = RenderEnv(codec: Codec, names: ToolHistory.Names, show: MediaRef -> Option<Json>,
                                 placeholder: MediaRef -> string)

  /** Trimming text to nothing leaves nothing of an empty one. */
  predicate EmptyIsBlank(env: RenderEnv) {
    env.names.blank("")
  }

  datatype Resolved = Shown(item: Json) | Placeholder(text: string)

  datatype Segment =
    | TextSegment(role: Role, text: string, block: nat, parts: nat, wire: Option<Json>)
    | SealedSegment(item: Json)
    | MediaSegment(role: Role, media: Resolved, block: nat)
    | CallSegment(wireId: string, name: string, arguments: Json, wire: Option<Json>)
    | ResultSegment(wireId: string, status: Status, content: string, notes: seq<string>, attachments: seq<Resolved>)
    | ChangeSegment(change: ToolSetChange)

  /** Media shows in user position only. */
  function Resolve(env: RenderEnv, m: MediaRef, role: Role): Resolved {
    if role.User? && env.show(m).Some? then Shown(env.show(m).value) else Placeholder(env.placeholder(m))
  }

  function OwnWire(b: Block, format: string): Option<Json> {
    if b.meta.wire.Some? && b.meta.wire.value.format == format then Some(b.meta.wire.value.fields) else None
  }

  function PartSegment(env: RenderEnv, role: Role, part: ContentPart, block: nat, parts: nat, wire: Option<Json>,
                       format: string)
    : seq<Segment>
  {
    match part
    case Text(text) => if text == "" then [] else [TextSegment(role, text, block, parts, wire)]
    case Media(m) => [MediaSegment(role, Resolve(env, m, role), block)]
    case Sealed(own, item) => if role.Assistant? && own == format then [SealedSegment(item)] else []
  }

  function PartSegments(env: RenderEnv, role: Role, all: seq<ContentPart>, n: nat, block: nat, wire: Option<Json>,
                        format: string)
    : seq<Segment>
    requires n <= |all|
  {
    if n == 0 then []
    else PartSegments(env, role, all, n - 1, block, wire, format) + PartSegment(env, role, all[n - 1], block, |all|, wire, format)
  }

  /** The wire id of the declaration a result answers. */
  function WireIdOf(n: ToolHistory.Names, blocks: seq<Block>, id: BlockId): Option<string> {
    if blocks == [] then None
    else
      var last := blocks[|blocks| - 1];
      if last.content.Declaration? && last.id == id then Some(WireId(n, last)) else WireIdOf(n, blocks[..|blocks| - 1], id)
  }

  function ResolveAll(env: RenderEnv, media: seq<MediaRef>): seq<Resolved> {
    seq(|media|, i requires 0 <= i < |media| => Resolve(env, media[i], User))
  }

  function ObservationText(codec: Codec, content: Json): string {
    if content.Str? then content.s else codec.print_(content)
  }

  /** What one block of a frame contributes. */
  function BlockSegments(env: RenderEnv, all: seq<Block>, i: nat, format: string, inPlace: bool): seq<Segment>
    requires i < |all|
  {
    ContentSegments(env, all, i, all[i], all[i].content, format, inPlace && ChangesOf(all[..i]) != [])
  }

  function ContentSegments(env: RenderEnv, all: seq<Block>, i: nat, b: Block, content: BlockContent, format: string,
                           showChange: bool)
    : seq<Segment>
  {
    match content
    case Message(role, parts) =>
      PartSegments(env, role, parts, |parts|, i, if role.Assistant? then OwnWire(b, format) else None, format)
    case Declaration(input) => [CallSegment(WireId(env.names, b), input.toolName, input.arguments, OwnWire(b, format))]
    case Outcome(result) =>
      var wireId := WireIdOf(env.names, all, result.callBlockId);
      [ResultSegment(if wireId.Some? then wireId.value else "", result.status,
                     ObservationText(env.codec, result.output.content), result.notes, ResolveAll(env, result.media))]
    case ToolsChanged(change) => if showChange then [ChangeSegment(change)] else []
  }

  /** The segments of the blocks from `lo` up to `hi`. */
  function SegmentsOf(env: RenderEnv, all: seq<Block>, lo: nat, hi: nat, format: string, inPlace: bool): seq<Segment>
    requires lo <= hi <= |all|
    decreases hi
  {
    if lo == hi then []
    else SegmentsOf(env, all, lo, hi - 1, format, inPlace) + BlockSegments(env, all, hi - 1, format, inPlace)
  }

  lemma {:induction false} SegmentsJoin(env: RenderEnv, all: seq<Block>, a: nat, b: nat, c: nat, format: string, inPlace: bool)
    requires a <= b <= c <= |all|
    ensures SegmentsOf(env, all, a, c, format, inPlace) ==
            SegmentsOf(env, all, a, b, format, inPlace) + SegmentsOf(env, all, b, c, format, inPlace)
    decreases c
  {
    var first := SegmentsOf(env, all, a, b, format, inPlace);
    if b == c {
      assert first + [] == first;
    } else {
      SegmentsJoin(env, all, a, b, c - 1, format, inPlace);
      Associate(first, SegmentsOf(env, all, b, c - 1, format, inPlace), BlockSegments(env, all, c - 1, format, inPlace));
    }
  }

  lemma OneBlock(env: RenderEnv, all: seq<Block>, i: nat, format: string, inPlace: bool)
    requires i < |all|
    ensures SegmentsOf(env, all, i, i + 1, format, inPlace) == BlockSegments(env, all, i, format, inPlace)
  {
    var one := BlockSegments(env, all, i, format, inPlace);
    assert SegmentsOf(env, all, i, i, format, inPlace) + one == one;
  }

  lemma FirstBlock(env: RenderEnv, all: seq<Block>, lo: nat, hi: nat, format: string, inPlace: bool)
    requires lo < hi <= |all|
    ensures SegmentsOf(env, all, lo, hi, format, inPlace) ==
            BlockSegments(env, all, lo, format, inPlace) + SegmentsOf(env, all, lo + 1, hi, format, inPlace)
  {
    SegmentsJoin(env, all, lo, lo + 1, hi, format, inPlace);
    OneBlock(env, all, lo, format, inPlace);
  }

  lemma OnePart(env: RenderEnv, part: ContentPart, i: nat, wire: Option<Json>, format: string)
    ensures PartSegments(env, Assistant, [part], 1, i, wire, format) == PartSegment(env, Assistant, part, i, 1, wire, format)
  {
    var one := PartSegment(env, Assistant, part, i, 1, wire, format);
    assert PartSegments(env, Assistant, [part], 0, i, wire, format) == [];
    assert [] + one == one;
  }

  /** In a sendable frame every result finds the wire id of its own call. */
  lemma {:induction false} ResultsFindCalls(n: ToolHistory.Names, blocks: seq<Block>, id: BlockId)
    ensures WireIdOf(n, blocks, id).Some? <==> IsDeclaration(blocks, id)
    ensures WireIdOf(n, blocks, id).Some? ==>
              exists i :: 0 <= i < |blocks| && blocks[i].content.Declaration? && blocks[i].id == id
                          && WireIdOf(n, blocks, id).value == WireId(n, blocks[i])
    decreases |blocks|
  {
    if blocks != [] {
      var past, last := blocks[..|blocks| - 1], blocks[|blocks| - 1];
      ResultsFindCalls(n, past, id);
      assert past + [last] == blocks;
      DeclarationAppended(past, last, id);
      if last.content.Declaration? && last.id == id {
        assert blocks[|past|] == last;
      } else if WireIdOf(n, past, id).Some? {
        var i :| 0 <= i < |past| && past[i].content.Declaration? && past[i].id == id
                 && WireIdOf(n, past, id).value == WireId(n, past[i]);
        assert blocks[i] == past[i];
      }
    }
  }

  /** The lookup of a result's call never fails on a frame that passed the history check. */
  lemma LookupNeverFails(n: ToolHistory.Names, blocks: seq<Block>, k: nat)
    requires Sendable(n, blocks) && k < |blocks| && blocks[k].content.Outcome?
    ensures WireIdOf(n, blocks, blocks[k].content.result.callBlockId).Some?
  {
    var id := blocks[k].content.result.callBlockId;
    assert MayFollow(n, blocks[..k], blocks[k]);
    var i :| 0 <= i < k && blocks[..k][i].content.Declaration? && blocks[..k][i].id == id;
    assert blocks[i].id == id && blocks[i].content.Declaration?;
    ResultsFindCalls(n, blocks, id);
  }

  /** The walk as it is written. */
  method Normalize(env: RenderEnv, blocks: seq<Block>, format: string, inPlace: bool) returns (segments: seq<Segment>)
    ensures segments == SegmentsOf(env, blocks, 0, |blocks|, format, inPlace)
  {
    segments := [];
    var declared, k: nat := false, 0;
    assert blocks[..0] == [];
    while k < |blocks|
      invariant k <= |blocks|
      invariant segments == SegmentsOf(env, blocks, 0, k, format, inPlace)
      invariant declared == (ChangesOf(blocks[..k]) != [])
    {
      var b := blocks[k];
      assert blocks[..k + 1][..k] == blocks[..k];
      match b.content {
        case Message(role, parts) =>
          var added := WalkParts(env, role, parts, k, if role.Assistant? then OwnWire(b, format) else None, format);
          segments := segments + added;
        case Declaration(input) =>
          segments := segments + [CallSegment(WireId(env.names, b), input.toolName, input.arguments, OwnWire(b, format))];
        case Outcome(_) =>
          segments := segments + BlockSegments(env, blocks, k, format, inPlace);
        case ToolsChanged(change) =>
          if declared && inPlace {
            segments := segments + [ChangeSegment(change)];
          } else {
            assert segments + [] == segments;
          }
          declared := true;
      }
      k := k + 1;
    }
  }

  method WalkParts(env: RenderEnv, role: Role, parts: seq<ContentPart>, block: nat, wire: Option<Json>, format: string)
    returns (segments: seq<Segment>)
    ensures segments == PartSegments(env, role, parts, |parts|, block, wire, format)
  {
    segments := [];
    var k: nat := 0;
    while k < |parts|
      invariant k <= |parts| && segments == PartSegments(env, role, parts, k, block, wire, format)
    {
      segments := segments + PartSegment(env, role, parts[k], block, |parts|, wire, format);
      k := k + 1;
    }
  }

  // -- the leading system run -------------------------------------------------------------------

  predicate IsSystem(s: Segment) {
    (s.TextSegment? && s.role.System?) || (s.MediaSegment? && s.role.System? && s.media.Placeholder?)
  }

  function LeadingSystem(segments: seq<Segment>): (n: nat)
    ensures n <= |segments| && (forall i :: 0 <= i < n ==> IsSystem(segments[i]))
    ensures n < |segments| ==> !IsSystem(segments[n])
  {
    if segments != [] && IsSystem(segments[0]) then 1 + LeadingSystem(segments[1..]) else 0
  }

  // -- rebuilding an item on its residue ----------------------------------------------------------

  function ResidueObject(fields: Option<Json>): Fields {
    if fields.Some? && fields.value.Obj? then fields.value.fields else map[]
  }

  function OrInsert(fields: Fields, key: string, v: Json): Fields {
    if key in fields then fields else fields[key := v]
  }

  /** The original arguments string while it still says the same, otherwise the facts encoded. */
  function WireArguments(codec: Codec, raw: Option<Json>, facts: Json): string {
    var text := AsStr(raw);
    if text.Some? && codec.parse(text.value) == Some(facts) then text.value else codec.print_(facts)
  }

  /** Edited or not, what is sent always parses to the facts; unedited, it is the original string. */
  lemma ArgumentsAlwaysParse(codec: Codec, raw: Option<Json>, facts: Json)
    requires ReadsBack(codec, facts)
    ensures codec.parse(WireArguments(codec, raw, facts)) == Some(facts)
    ensures AsStr(raw).Some? && codec.parse(AsStr(raw).value) == Some(facts) ==> WireArguments(codec, raw, facts) == AsStr(raw).value
  {
  }
}

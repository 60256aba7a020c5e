/** Context facts: what a conversation is made of. */
module Blocks {
  import opened Wrappers
  import opened Json
  import opened Model

  type BlockId = nat

  datatype Role = System | User | Assistant

  datatype ToolDefinition = ToolDefinition(name: string, description: string, parameters: Json)

  /** Withdraws `removed`, then adds `added`. */
  datatype ToolSetChange = ToolSetChange(added: seq<ToolDefinition>, removed: seq<string>)

  datatype ToolInput = ToolInput(toolName: string, arguments: Json)

  datatype Status = Succeeded | Failed | Rejected | Cancelled | TimedOut | Unobserved

  /** An observation; when shortened, its original estimate and where the original was stored. */
  datatype ToolOutput = ToolOutput(content: Json, truncated: bool, reason: Option<string>,
                                   originalTokens: Option<nat>, artifact: Option<string>)

  function PlainOutput(content: Json, reason: Option<string>): ToolOutput {
    ToolOutput(content, false, reason, None, None)
  }

  datatype ToolResult = ToolResult(callBlockId: BlockId, status: Status, output: ToolOutput,
                                   media: seq<MediaRef>, notes: seq<string>)

  datatype BlockContent =
    | Message(role: Role, parts: seq<ContentPart>)
    | Declaration(input: ToolInput)
    | Outcome(result: ToolResult)
    | ToolsChanged(change: ToolSetChange)

  datatype BlockMeta = BlockMeta(providerCallId: Option<string>, source: Option<string>, wire: Option<WireMeta>)

  const NoMeta := BlockMeta(None, None, None)

  datatype Block = Block(id: BlockId, content: BlockContent, meta: BlockMeta)

  function Ids(blocks: seq<Block>): (ids: seq<BlockId>)
    ensures |ids| == |blocks| && forall i :: 0 <= i < |ids| ==> ids[i] == blocks[i].id
  {
    seq(|blocks|, i requires 0 <= i < |blocks| => blocks[i].id)
  }

  predicate UniqueIds(blocks: seq<Block>) {
    Distinct(Ids(blocks))
  }

  /** The blocks stand at `at` in the frame. */
  predicate StandsAt(all: seq<Block>, at: nat, blocks: seq<Block>) {
    at + |blocks| <= |all| && all[at..at + |blocks|] == blocks
  }

  lemma StandsFirst(all: seq<Block>, at: nat, blocks: seq<Block>)
    requires StandsAt(all, at, blocks) && blocks != []
    ensures all[at] == blocks[0] && StandsAt(all, at + 1, blocks[1..])
  {
    assert all[at..at + |blocks|][0] == all[at];
    assert all[at + 1..at + 1 + |blocks[1..]|] == all[at..at + |blocks|][1..];
  }
}

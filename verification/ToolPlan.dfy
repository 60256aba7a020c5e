/** Rendering tool changes where they happened, and when that says the same as one folded list. */
module ToolPlan {
  import opened Wrappers
  import opened Sequences
  import opened Blocks
  import opened ToolSets

  datatype Placement = FoldAll | AnthropicInPlace | ResponsesAdditive

  datatype Plan = Plan(tools: Tools, inPlace: bool)

  /** Every change adds only, and only names nobody used before it. */
  predicate OnlyNew(names: seq<string>, added: Tools)
    decreases |added|
  {
    added == [] || (added[0].name !in names && OnlyNew(names + [added[0].name], added[1..]))
  }

  predicate Additive(names: seq<string>, changes: seq<ToolSetChange>)
    decreases |changes|
  {
    changes == [] ||
    (changes[0].removed == [] && OnlyNew(names, changes[0].added)
     && Additive(names + Names(changes[0].added), changes[1..]))
  }

  predicate Expressible(placement: Placement, declaration: Tools, later: seq<ToolSetChange>) {
    match placement
    case FoldAll => false
    case AnthropicInPlace => declaration != []
    case ResponsesAdditive => Additive(Names(declaration), later)
  }

  function PlanTools(blocks: seq<Block>, placement: Placement): Plan {
    var changes := ChangesOf(blocks);
    if changes == [] then Plan(CurrentTools(blocks), false)
    else
      var declaration := Apply(changes[0], []);
      if Expressible(placement, declaration, changes[1..]) then Plan(declaration, true)
      else Plan(CurrentTools(blocks), false)
  }

  /** The scan for new names, name by name and change by change. */
  method ScanAdditions(declaration: Tools, later: seq<ToolSetChange>) returns (additive: bool)
    ensures additive == Additive(Names(declaration), later)
  {
    var names, k := Names(declaration), 0;
    assert later[0..] == later;
    while k < |later|
      invariant 0 <= k <= |later|
      invariant Additive(Names(declaration), later) == Additive(names, later[k..])
    {
      var added, i := later[k].added, 0;
      assert later[k..][1..] == later[k + 1..] && added[0..] == added;
      if later[k].removed != [] {
        return false;
      }
      ghost var known := names;
      while i < |added|
        invariant 0 <= i <= |added|
        invariant names == known + Names(added[..i])
        invariant OnlyNew(known, added) == OnlyNew(names, added[i..])
      {
        assert added[i..][1..] == added[i + 1..];
        if added[i].name in names {
          return false;
        }
        assert known + Names(added[..i + 1]) == known + Names(added[..i]) + [added[i].name];
        names := names + [added[i].name];
        i := i + 1;
      }
      assert added[..i] == added;
      k := k + 1;
    }
    additive := true;
  }

  // -- Anthropic: removals and additions -----------------------------------------------------

  datatype ChangeBlock = Removal(name: string) | Addition(definition: ToolDefinition)

  predicate HasName(tools: Tools, name: string) {
    exists i :: 0 <= i < |tools| && tools[i].name == name
  }

  /** A removal per withdrawn tool that is offered and not defined again, then the additions. */
  function Removals(removed: seq<string>, offered: Tools, added: Tools): seq<ChangeBlock> {
    if removed == [] then []
    else
      var past, last := Removals(removed[..|removed| - 1], offered, added), removed[|removed| - 1];
      if HasName(offered, last) && !HasName(added, last) then past + [Removal(last)] else past
  }

  function Additions(added: Tools): seq<ChangeBlock> {
    seq(|added|, i requires 0 <= i < |added| => Addition(added[i]))
  }

  function ChangeBlocks(change: ToolSetChange, offered: Tools): seq<ChangeBlock> {
    Removals(change.removed, offered, change.added) + Additions(change.added)
  }

  /** What a reader of the request takes to be offered under `name` after the blocks. */
  function Read(blocks: seq<ChangeBlock>, before: Option<ToolDefinition>, name: string): Option<ToolDefinition> {
    if blocks == [] then before
    else
      var past, last := Read(blocks[..|blocks| - 1], before, name), blocks[|blocks| - 1];
      match last
      case Removal(gone) => if gone == name then None else past
      case Addition(d) => if d.name == name then Some(d) else past
  }

  lemma {:induction false} ReadConcat(a: seq<ChangeBlock>, b: seq<ChangeBlock>, before: Option<ToolDefinition>, name: string)
    ensures Read(a + b, before, name) == Read(b, Read(a, before, name), name)
    decreases |b|
  {
    if b == [] {
      assert a + b == a;
    } else {
      assert (a + b)[..|a + b| - 1] == a + b[..|b| - 1];
      ReadConcat(a, b[..|b| - 1], before, name);
    }
  }

  lemma {:induction false} ReadAdditions(added: Tools, before: Option<ToolDefinition>, name: string)
    ensures Read(Additions(added), before, name) == if FindLast(added, name).Some? then FindLast(added, name) else before
    decreases |added|
  {
    if added != [] {
      assert Additions(added)[..|added| - 1] == Additions(added[..|added| - 1]);
      ReadAdditions(added[..|added| - 1], before, name);
    }
  }

  lemma {:induction false} ReadRemovals(removed: seq<string>, offered: Tools, added: Tools,
                                        before: Option<ToolDefinition>, name: string)
    ensures Read(Removals(removed, offered, added), before, name) ==
            if name in removed && HasName(offered, name) && !HasName(added, name) then None else before
    decreases |removed|
  {
    if removed != [] {
      var past, last := removed[..|removed| - 1], removed[|removed| - 1];
      ReadRemovals(past, offered, added, before, name);
      assert name in removed <==> name in past || name == last;
      var blocks := Removals(past, offered, added);
      assert (blocks + [Removal(last)])[..|blocks|] == blocks;
    }
  }

  lemma HasNameFinds(tools: Tools, name: string)
    ensures HasName(tools, name) <==> Find(tools, name).Some?
    ensures HasName(tools, name) <==> FindLast(tools, name).Some?
  {
    FindNone(tools, name);
    if HasName(tools, name) {
      var i :| 0 <= i < |tools| && tools[i].name == name;
      assert tools[i] in tools;
    }
    if d :| d in tools && d.name == name {
      var i :| 0 <= i < |tools| && tools[i] == d;
      assert HasName(tools, name);
    }
  }

  /** The blocks of one change mean that change, whatever was offered before it. */
  lemma ChangeBlocksMeanChange(change: ToolSetChange, offered: Tools, name: string)
    ensures Read(ChangeBlocks(change, offered), Find(offered, name), name) == Find(Apply(change, offered), name)
  {
    var before := Find(offered, name);
    var removals := Removals(change.removed, offered, change.added);
    ReadConcat(removals, Additions(change.added), before, name);
    ReadRemovals(change.removed, offered, change.added, before, name);
    ReadAdditions(change.added, Read(removals, before, name), name);
    ApplyFinds(change, offered, name);
    HasNameFinds(offered, name);
    HasNameFinds(change.added, name);
  }

  /** All in-place blocks of a request, each change rendered against what is offered at its place. */
  function InPlaceBlocks(changes: seq<ToolSetChange>, declaration: Tools): seq<ChangeBlock>
    decreases |changes|
  {
    if changes == [] then []
    else
      var past := changes[..|changes| - 1];
      InPlaceBlocks(past, declaration) + ChangeBlocks(changes[|changes| - 1], Fold(past, declaration))
  }

  lemma {:induction false} InPlaceMeansFold(changes: seq<ToolSetChange>, declaration: Tools, name: string)
    ensures Read(InPlaceBlocks(changes, declaration), Find(declaration, name), name) ==
            Find(Fold(changes, declaration), name)
    decreases |changes|
  {
    if changes != [] {
      var past, last := changes[..|changes| - 1], changes[|changes| - 1];
      InPlaceMeansFold(past, declaration, name);
      ReadConcat(InPlaceBlocks(past, declaration), ChangeBlocks(last, Fold(past, declaration)), Find(declaration, name), name);
      ChangeBlocksMeanChange(last, Fold(past, declaration), name);
    }
  }

  // -- Responses: additions only -----------------------------------------------------------------

  function AddedIn(changes: seq<ToolSetChange>): Tools {
    if changes == [] then [] else changes[0].added + AddedIn(changes[1..])
  }

  lemma {:induction false} PutNew(tools: Tools, d: ToolDefinition)
    requires d.name !in Names(tools)
    ensures Put(tools, d) == tools + [d]
    decreases |tools|
  {
    if tools != [] {
      assert Names(tools)[0] == tools[0].name;
      forall i | 0 <= i < |tools[1..]| ensures Names(tools[1..])[i] in Names(tools) {
        assert Names(tools)[i + 1] == Names(tools[1..])[i];
      }
      PutNew(tools[1..], d);
    }
  }

  lemma {:induction false} PutAllFirst(tools: Tools, d: ToolDefinition, more: Tools)
    ensures PutAll(tools, [d] + more) == PutAll(Put(tools, d), more)
    decreases |more|
  {
    if more == [] {
      assert [d] + more == [d] && [d][..0] == [];
    } else {
      assert ([d] + more)[..|more|] == [d] + more[..|more| - 1];
      PutAllFirst(tools, d, more[..|more| - 1]);
    }
  }

  lemma {:induction false} PutAllNew(tools: Tools, added: Tools)
    requires OnlyNew(Names(tools), added)
    ensures PutAll(tools, added) == tools + added
    decreases |added|
  {
    if added == [] {
      assert tools + added == tools;
    } else {
      var d, more := added[0], added[1..];
      assert added == [d] + more && Names(tools + [d]) == Names(tools) + [d.name];
      PutNew(tools, d);
      PutAllFirst(tools, d, more);
      PutAllNew(tools + [d], more);
      assert tools + [d] + more == tools + added;
    }
  }

  lemma {:induction false} RetainedAll(tools: Tools)
    ensures Retained(tools, []) == tools
  {
    if tools != [] {
      RetainedAll(tools[1..]);
    }
  }

  lemma {:induction false} AddsAtEnd(change: ToolSetChange, tools: Tools)
    requires change.removed == [] && OnlyNew(Names(tools), change.added)
    ensures Apply(change, tools) == tools + change.added
    ensures Names(tools + change.added) == Names(tools) + Names(change.added)
  {
    RetainedAll(tools);
    PutAllNew(tools, change.added);
  }

  /** When only new names are added, the declaration and the additions in order are the current list. */
  lemma {:induction false} AdditiveMeansAppend(changes: seq<ToolSetChange>, declaration: Tools)
    requires Additive(Names(declaration), changes)
    ensures Fold(changes, declaration) == declaration + AddedIn(changes)
    decreases |changes|
  {
    if changes == [] {
      assert declaration + [] == declaration;
    } else {
      var first, rest := changes[0], changes[1..];
      assert changes == [first] + rest;
      AddsAtEnd(first, declaration);
      FoldSplit(first, rest, declaration);
      AdditiveMeansAppend(rest, declaration + first.added);
      Associate(declaration, first.added, AddedIn(rest));
    }
  }

  /**
   Whatever the placement, the request offers the frame's current tools: folded into its list, or
   as the declaration followed by the changes shown in place.
   */
  lemma PlanMeansCurrent(blocks: seq<Block>, placement: Placement, name: string)
    ensures var plan := PlanTools(blocks, placement);
            && (!plan.inPlace ==> plan.tools == CurrentTools(blocks))
            && (plan.inPlace ==> ChangesOf(blocks) != [] && !placement.FoldAll?)
            && (plan.inPlace && placement.AnthropicInPlace? ==>
                  Read(InPlaceBlocks(ChangesOf(blocks)[1..], plan.tools), Find(plan.tools, name), name) ==
                  Find(CurrentTools(blocks), name))
            && (plan.inPlace && placement.ResponsesAdditive? ==>
                  plan.tools + AddedIn(ChangesOf(blocks)[1..]) == CurrentTools(blocks))
  {
    var plan, changes := PlanTools(blocks, placement), ChangesOf(blocks);
    if plan.inPlace {
      assert changes == [changes[0]] + changes[1..];
      FoldSplit(changes[0], changes[1..], []);
      if placement.AnthropicInPlace? {
        InPlaceMeansFold(changes[1..], plan.tools, name);
      } else {
        AdditiveMeansAppend(changes[1..], plan.tools);
      }
    }
  }
}

/**
 The offered tools as a fold of changes: the difference between two sets patches one into the
 other, and a request that shows changes in place means the same as one that folds them.
 */
module ToolSets {
  import opened Wrappers
  import opened Blocks

  type Tools = seq<ToolDefinition>

  function Find(tools: Tools, name: string): (found: Option<ToolDefinition>)
    ensures found.Some? ==> found.value in tools && found.value.name == name
  {
    if tools == [] then None
    else if tools[0].name == name then Some(tools[0]) else Find(tools[1..], name)
  }

  predicate UniqueNames(tools: Tools) {
    forall i, j :: 0 <= i < j < |tools| ==> tools[i].name != tools[j].name
  }

  /** Two lists offer the same tools: the same definition, or none, under every name. */
  ghost predicate SameTools(a: Tools, b: Tools) {
    forall name :: Find(a, name) == Find(b, name)
  }

  // -- the difference ---------------------------------------------------------------------

  /** The definitions of `of` that `against` does not hold unchanged. */
  function Differing(of: Tools, against: Tools): (r: Tools)
    ensures forall d :: d in r <==> d in of && Find(against, d.name) != Some(d)
  {
    if of == [] then []
    else
      var past, last := Differing(of[..|of| - 1], against), of[|of| - 1];
      if Find(against, last.name) != Some(last) then past + [last] else past
  }

  function Names(tools: Tools): (r: seq<string>)
    ensures |r| == |tools| && forall i :: 0 <= i < |r| ==> r[i] == tools[i].name
  {
    seq(|tools|, i requires 0 <= i < |tools| => tools[i].name)
  }

  function Between(previous: Tools, current: Tools): ToolSetChange {
    ToolSetChange(Differing(current, previous), Names(Differing(previous, current)))
  }

  predicate IsEmpty(change: ToolSetChange) {
    change.added == [] && change.removed == []
  }

  // -- applying a change -------------------------------------------------------------------

  function Retained(tools: Tools, removed: seq<string>): (r: Tools)
    ensures forall d :: d in r <==> d in tools && d.name !in removed
  {
    if tools == [] then []
    else if tools[0].name in removed then Retained(tools[1..], removed)
    else [tools[0]] + Retained(tools[1..], removed)
  }

  /** Replaces the definition of the same name, or adds a new one at the end. */
  function Put(tools: Tools, d: ToolDefinition): Tools {
    if tools == [] then [d]
    else if tools[0].name == d.name then [d] + tools[1..]
    else [tools[0]] + Put(tools[1..], d)
  }

  function PutAll(tools: Tools, added: Tools): Tools {
    if added == [] then tools else Put(PutAll(tools, added[..|added| - 1]), added[|added| - 1])
  }

  function Apply(change: ToolSetChange, tools: Tools): Tools {
    PutAll(Retained(tools, change.removed), change.added)
  }

  /** The definition offered under a name after a change. */
  function FindAfter(change: ToolSetChange, tools: Tools, name: string): Option<ToolDefinition> {
    var added := FindLast(change.added, name);
    if added.Some? then added else if name in change.removed then None else Find(tools, name)
  }

  function FindLast(tools: Tools, name: string): (found: Option<ToolDefinition>)
    ensures found.Some? ==> found.value in tools && found.value.name == name
    ensures found.None? ==> forall d :: d in tools ==> d.name != name
  {
    if tools == [] then None
    else if tools[|tools| - 1].name == name then Some(tools[|tools| - 1]) else FindLast(tools[..|tools| - 1], name)
  }

  lemma {:induction false} FindPut(tools: Tools, d: ToolDefinition, name: string)
    ensures Find(Put(tools, d), name) == if name == d.name then Some(d) else Find(tools, name)
    decreases |tools|
  {
    if tools != [] {
      FindPut(tools[1..], d, name);
      assert ([tools[0]] + Put(tools[1..], d))[1..] == Put(tools[1..], d);
      assert ([d] + tools[1..])[1..] == tools[1..];
    } else {
      assert [d][1..] == [];
    }
  }

  lemma {:induction false} FindPutAll(tools: Tools, added: Tools, name: string)
    ensures Find(PutAll(tools, added), name) ==
            if FindLast(added, name).Some? then FindLast(added, name) else Find(tools, name)
    decreases |added|
  {
    if added != [] {
      FindPutAll(tools, added[..|added| - 1], name);
      FindPut(PutAll(tools, added[..|added| - 1]), added[|added| - 1], name);
    }
  }

  lemma {:induction false} FindRetained(tools: Tools, removed: seq<string>, name: string)
    ensures Find(Retained(tools, removed), name) == if name in removed then None else Find(tools, name)
    decreases |tools|
  {
    if tools != [] {
      FindRetained(tools[1..], removed, name);
      var rest := Retained(tools[1..], removed);
      assert ([tools[0]] + rest)[1..] == rest;
    }
  }

  /** A change speaks of each name on its own: added last, removed, or as before. */
  lemma ApplyFinds(change: ToolSetChange, tools: Tools, name: string)
    ensures Find(Apply(change, tools), name) == FindAfter(change, tools, name)
  {
    FindPutAll(Retained(tools, change.removed), change.added, name);
    FindRetained(tools, change.removed, name);
  }

  lemma {:induction false} FindIsMember(tools: Tools, d: ToolDefinition)
    requires UniqueNames(tools)
    ensures d in tools <==> Find(tools, d.name) == Some(d)
    decreases |tools|
  {
    if tools != [] {
      FindIsMember(tools[1..], d);
      if d in tools[1..] {
        var j :| 0 <= j < |tools[1..]| && tools[1..][j] == d;
        assert tools[0].name != tools[j + 1].name;
      }
    }
  }

  lemma {:induction false} FindNone(tools: Tools, name: string)
    ensures Find(tools, name).None? <==> forall d :: d in tools ==> d.name != name
    decreases |tools|
  {
    if tools != [] {
      FindNone(tools[1..], name);
    }
  }

  /** The difference of two sets of unique names, applied to the first, offers what the second does. */
  lemma BetweenPatches(previous: Tools, current: Tools)
    requires UniqueNames(previous) && UniqueNames(current)
    ensures SameTools(Apply(Between(previous, current), previous), current)
  {
    forall name ensures Find(Apply(Between(previous, current), previous), name) == Find(current, name) {
      ApplyFinds(Between(previous, current), previous, name);
      PatchedName(previous, current, name);
    }
  }

  lemma PatchedName(previous: Tools, current: Tools, name: string)
    requires UniqueNames(previous) && UniqueNames(current)
    ensures FindAfter(Between(previous, current), previous, name) == Find(current, name)
  {
    var change := Between(previous, current);
    var added, was, now := FindLast(change.added, name), Find(previous, name), Find(current, name);
    if added.Some? {
      FindIsMember(current, added.value);
    } else {
      if now.Some? {
        assert now.value !in change.added;
        FindIsMember(current, now.value);
        assert was == now;
      }
      RemovedNames(previous, current, name);
    }
  }

  lemma RemovedNames(previous: Tools, current: Tools, name: string)
    requires UniqueNames(previous)
    ensures name in Between(previous, current).removed <==>
            Find(previous, name).Some? && Find(current, name) != Find(previous, name)
  {
    var gone := Differing(previous, current);
    if name in Names(gone) {
      var i :| 0 <= i < |gone| && Names(gone)[i] == name;
      assert gone[i] in gone;
      FindIsMember(previous, gone[i]);
    }
    var was := Find(previous, name);
    if was.Some? && Find(current, name) != was {
      assert was.value in gone;
      var i :| 0 <= i < |gone| && gone[i] == was.value;
      assert Names(gone)[i] == name;
    }
  }

  /** The difference is empty exactly when both sets offer the same. */
  lemma EmptyIsSame(previous: Tools, current: Tools)
    requires UniqueNames(previous) && UniqueNames(current)
    ensures IsEmpty(Between(previous, current)) <==> SameTools(previous, current)
  {
    var change := Between(previous, current);
    if IsEmpty(change) {
      forall name ensures Find(previous, name) == Find(current, name) {
        PatchedName(previous, current, name);
      }
    }
    if SameTools(previous, current) {
      NoDifference(current, previous);
      NoDifference(previous, current);
    }
  }

  lemma NoDifference(of: Tools, against: Tools)
    requires UniqueNames(of) && SameTools(of, against)
    ensures Differing(of, against) == []
  {
    forall d | d in of ensures Find(against, d.name) == Some(d) {
      FindIsMember(of, d);
      assert Find(of, d.name) == Find(against, d.name);
    }
    NoneDiffers(of, against);
  }

  lemma {:induction false} NoneDiffers(of: Tools, against: Tools)
    requires forall d :: d in of ==> Find(against, d.name) == Some(d)
    ensures Differing(of, against) == []
    decreases |of|
  {
    if of != [] {
      NoneDiffers(of[..|of| - 1], against);
    }
  }

  // -- unique names are kept ----------------------------------------------------------------

  lemma {:induction false} PutKeepsUnique(tools: Tools, d: ToolDefinition)
    requires UniqueNames(tools)
    ensures UniqueNames(Put(tools, d))
    ensures forall x :: x in Put(tools, d) ==> x == d || x in tools
    decreases |tools|
  {
    if tools != [] {
      PutKeepsUnique(tools[1..], d);
      var rest := Put(tools[1..], d);
      if tools[0].name != d.name {
        forall j | 0 <= j < |rest| ensures rest[j].name != tools[0].name {
          assert rest[j] in rest;
          if rest[j] in tools[1..] {
            var k :| 0 <= k < |tools[1..]| && tools[1..][k] == rest[j];
            assert tools[k + 1].name != tools[0].name;
          }
        }
      }
    }
  }

  lemma {:induction false} PutAllKeepsUnique(tools: Tools, added: Tools)
    requires UniqueNames(tools)
    ensures UniqueNames(PutAll(tools, added))
    decreases |added|
  {
    if added != [] {
      PutAllKeepsUnique(tools, added[..|added| - 1]);
      PutKeepsUnique(PutAll(tools, added[..|added| - 1]), added[|added| - 1]);
    }
  }

  lemma {:induction false} RetainedKeepsUnique(tools: Tools, removed: seq<string>)
    requires UniqueNames(tools)
    ensures UniqueNames(Retained(tools, removed))
    decreases |tools|
  {
    if tools != [] {
      RetainedKeepsUnique(tools[1..], removed);
      var rest := Retained(tools[1..], removed);
      forall j | 0 <= j < |rest| ensures rest[j].name != tools[0].name {
        assert rest[j] in rest;
        var k :| 0 <= k < |tools[1..]| && tools[1..][k] == rest[j];
        assert tools[k + 1].name != tools[0].name;
      }
    }
  }

  lemma ApplyKeepsUnique(change: ToolSetChange, tools: Tools)
    requires UniqueNames(tools)
    ensures UniqueNames(Apply(change, tools))
  {
    RetainedKeepsUnique(tools, change.removed);
    PutAllKeepsUnique(Retained(tools, change.removed), change.added);
  }

  // -- the fold --------------------------------------------------------------------------------

  function Fold(changes: seq<ToolSetChange>, tools: Tools): Tools
    decreases |changes|
  {
    if changes == [] then tools else Apply(changes[|changes| - 1], Fold(changes[..|changes| - 1], tools))
  }

  function ChangesOf(blocks: seq<Block>): seq<ToolSetChange> {
    if blocks == [] then []
    else
      var past, last := ChangesOf(blocks[..|blocks| - 1]), blocks[|blocks| - 1].content;
      if last.ToolsChanged? then past + [last.change] else past
  }

  function CurrentTools(blocks: seq<Block>): Tools {
    Fold(ChangesOf(blocks), [])
  }

  lemma {:induction false} FoldKeepsUnique(changes: seq<ToolSetChange>, tools: Tools)
    requires UniqueNames(tools)
    ensures UniqueNames(Fold(changes, tools))
    decreases |changes|
  {
    if changes != [] {
      FoldKeepsUnique(changes[..|changes| - 1], tools);
      ApplyKeepsUnique(changes[|changes| - 1], Fold(changes[..|changes| - 1], tools));
    }
  }

  lemma FoldSnoc(changes: seq<ToolSetChange>, last: ToolSetChange, tools: Tools)
    ensures Fold(changes + [last], tools) == Apply(last, Fold(changes, tools))
  {
    assert (changes + [last])[..|changes|] == changes;
  }

  lemma {:induction false} FoldSplit(first: ToolSetChange, rest: seq<ToolSetChange>, tools: Tools)
    ensures Fold([first] + rest, tools) == Fold(rest, Apply(first, tools))
    decreases |rest|
  {
    if rest == [] {
      FoldSnoc([], first, tools);
      assert [first] + rest == [] + [first];
    } else {
      var past, last := rest[..|rest| - 1], rest[|rest| - 1];
      FoldSplit(first, past, tools);
      FoldSnoc([first] + past, last, tools);
      assert [first] + rest == [first] + past + [last];
    }
  }

  /** Recording a change when the bound tools differ makes the context offer the bound tools. */
  lemma ChangeRecorded(blocks: seq<Block>, block: Block, surface: Tools)
    requires UniqueNames(surface)
    requires block.content == ToolsChanged(Between(CurrentTools(blocks), surface))
    ensures SameTools(CurrentTools(blocks + [block]), surface)
  {
    var all := blocks + [block];
    assert all[..|all| - 1] == blocks;
    var past, change := ChangesOf(blocks), block.content.change;
    assert (past + [change])[..|past|] == past;
    FoldKeepsUnique(past, []);
    BetweenPatches(CurrentTools(blocks), surface);
  }

  // -- the imperative forms -----------------------------------------------------------------

  /** Puts one definition where its name is, or at the end. */
  method PutInPlace(tools: Tools, d: ToolDefinition) returns (result: Tools)
    ensures result == Put(tools, d)
  {
    var i := 0;
    while i < |tools| && tools[i].name != d.name
      invariant 0 <= i <= |tools|
      invariant Put(tools, d) == tools[..i] + Put(tools[i..], d)
    {
      assert tools[i..][1..] == tools[i + 1..];
      assert tools[..i + 1] == tools[..i] + [tools[i]];
      i := i + 1;
    }
    if i < |tools| {
      assert tools[i..][1..] == tools[i + 1..];
      assert tools[i := d] == tools[..i] + ([d] + tools[i + 1..]);
      result := tools[i := d];
    } else {
      assert tools[..i] == tools && tools[i..] == [];
      result := tools + [d];
    }
  }

  method ApplyTo(change: ToolSetChange, tools: Tools) returns (result: Tools)
    ensures result == Apply(change, tools)
  {
    result := Retained(tools, change.removed);
    var k := 0;
    assert change.added[..0] == [];
    while k < |change.added|
      invariant 0 <= k <= |change.added|
      invariant result == PutAll(Retained(tools, change.removed), change.added[..k])
    {
      assert change.added[..k + 1][..k] == change.added[..k];
      result := PutInPlace(result, change.added[k]);
      k := k + 1;
    }
    assert change.added[..k] == change.added;
  }

  method FoldTools(blocks: seq<Block>) returns (tools: Tools)
    ensures tools == CurrentTools(blocks)
  {
    tools := [];
    var k := 0;
    assert blocks[..0] == [];
    while k < |blocks|
      invariant 0 <= k <= |blocks|
      invariant tools == CurrentTools(blocks[..k])
    {
      assert blocks[..k + 1][..k] == blocks[..k];
      if blocks[k].content.ToolsChanged? {
        ghost var past := ChangesOf(blocks[..k]);
        assert (past + [blocks[k].content.change])[..|past|] == past;
        tools := ApplyTo(blocks[k].content.change, tools);
      }
      k := k + 1;
    }
    assert blocks[..k] == blocks;
  }
}

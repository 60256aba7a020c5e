/** The tools bound for one model invocation: ordered definitions and the names that can be dispatched. */
module Catalog {
  import opened Wrappers
  import opened Blocks
  import opened ToolSets
  import opened Handoff

  /** A statically registered tool: its registered name, and what it now says of itself. */
  datatype StaticTool = StaticTool(registered: string, definition: ToolDefinition)

  datatype CatalogError = ControlStopped | StaticNameChanged(registered: string, actual: string) | ListingFailed(source: nat)
                        | DuplicateTool(name: string)

  datatype Bound = Bound(tools: Tools, targets: set<string>)

  /** What a source answers when asked for its tools; nothing when listing fails. */
  type Listing = Option<Tools>

  predicate RegisteredOnce(statics: seq<StaticTool>) {
    forall i, j :: 0 <= i < j < |statics| ==> statics[i].registered != statics[j].registered
  }

  function NameSet(tools: Tools): set<string> {
    set i | 0 <= i < |tools| :: tools[i].name
  }

  /** One target per offered tool, and one tool per name. */
  predicate Consistent(bound: Bound) {
    UniqueNames(bound.tools) && bound.targets == NameSet(bound.tools)
  }

  function Definitions(statics: seq<StaticTool>): (r: Tools)
    ensures |r| == |statics| && forall i :: 0 <= i < |r| ==> r[i] == statics[i].definition
  {
    seq(|statics|, i requires 0 <= i < |statics| => statics[i].definition)
  }

  function Listed(listings: seq<Listing>): Tools {
    if listings == [] then []
    else Listed(listings[..|listings| - 1]) + (if listings[|listings| - 1].Some? then listings[|listings| - 1].value else [])
  }

  lemma ConsistentMore(bound: Bound, d: ToolDefinition)
    requires Consistent(bound) && d.name !in bound.targets
    ensures Consistent(Bound(bound.tools + [d], bound.targets + {d.name}))
  {
    var more := bound.tools + [d];
    forall i | 0 <= i < |bound.tools| ensures more[i].name != d.name {
      assert bound.tools[i].name in NameSet(bound.tools);
    }
    assert NameSet(more) == NameSet(bound.tools) + {d.name} by {
      assert more[|bound.tools|].name in NameSet(more);
      forall i | 0 <= i < |bound.tools| ensures bound.tools[i].name in NameSet(more) {
        assert more[i].name in NameSet(more);
      }
    }
  }

  /** Adds a source's tools, refusing a name that is taken. */
  method AddListing(bound: Bound, descriptions: Tools) returns (result: Result<Bound, CatalogError>)
    requires Consistent(bound)
    ensures result.Ok? ==> Consistent(result.value) && result.value.tools == bound.tools + descriptions
    ensures result.Err? ==> result.error.DuplicateTool? && !UniqueNames(bound.tools + descriptions)
  {
    var now, k := bound, 0;
    while k < |descriptions|
      invariant 0 <= k <= |descriptions|
      invariant Consistent(now) && now.tools == bound.tools + descriptions[..k]
    {
      var d := descriptions[k];
      if d.name in now.targets {
        var i :| 0 <= i < |now.tools| && now.tools[i].name == d.name;
        var all := bound.tools + descriptions;
        assert all[i] == now.tools[i] && all[|bound.tools| + k] == d;
        return Err(DuplicateTool(d.name));
      }
      ConsistentMore(now, d);
      assert descriptions[..k + 1] == descriptions[..k] + [d];
      now := Bound(now.tools + [d], now.targets + {d.name});
      k := k + 1;
    }
    assert descriptions[..k] == descriptions;
    result := Ok(now);
  }

  predicate KeepNames(statics: seq<StaticTool>) {
    forall i :: 0 <= i < |statics| ==> statics[i].definition.name == statics[i].registered
  }

  /** What the error says stands in the way of a catalog. */
  predicate Hinders(statics: seq<StaticTool>, listings: seq<Listing>, stopped: bool, e: CatalogError) {
    match e
    case ControlStopped => stopped
    case StaticNameChanged(registered, actual) =>
      registered != actual
      && exists i :: 0 <= i < |statics| && statics[i].registered == registered && statics[i].definition.name == actual
    case ListingFailed(source) => source < |listings| && listings[source].None?
    case DuplicateTool(_) => !UniqueNames(Definitions(statics) + Listed(listings))
  }

  lemma {:induction false} ListedGrows(listings: seq<Listing>, k: nat)
    requires k <= |listings|
    ensures Listed(listings[..k]) <= Listed(listings)
    decreases |listings|
  {
    if k == |listings| {
      assert listings[..k] == listings;
    } else {
      var past := listings[..|listings| - 1];
      assert past[..k] == listings[..k];
      ListedGrows(past, k);
    }
  }

  /** A clash among the tools so far is a clash among all of them. */
  lemma ClashStays(statics: seq<StaticTool>, listings: seq<Listing>, k: nat)
    requires k <= |listings| && !UniqueNames(Definitions(statics) + Listed(listings[..k]))
    ensures !UniqueNames(Definitions(statics) + Listed(listings))
  {
    ListedGrows(listings, k);
    var now, all := Definitions(statics) + Listed(listings[..k]), Definitions(statics) + Listed(listings);
    assert now <= all;
    var i, j :| 0 <= i < j < |now| && now[i].name == now[j].name;
    assert all[i] == now[i] && all[j] == now[j];
  }

  /** The static tools, each still under its registered name. */
  method BindStatics(statics: seq<StaticTool>, control: Control) returns (result: Result<Bound, CatalogError>)
    requires RegisteredOnce(statics)
    modifies control
    ensures result.Ok? ==> Consistent(result.value) && result.value.tools == Definitions(statics) && KeepNames(statics)
    ensures result.Err? ==> && Hinders(statics, [], control.HasStopped(), result.error)
                            && (result.error.ControlStopped? || result.error.StaticNameChanged?)
  {
    var bound, k := Bound([], {}), 0;
    while k < |statics|
      invariant 0 <= k <= |statics|
      invariant Consistent(bound) && bound.tools == Definitions(statics)[..k]
      invariant forall i :: 0 <= i < k ==> bound.tools[i].name == statics[i].registered
    {
      var stopped := control.IsStopped();
      if stopped {
        return Err(ControlStopped);
      }
      var entry := statics[k];
      if entry.definition.name != entry.registered {
        return Err(StaticNameChanged(entry.registered, entry.definition.name));
      }
      ConsistentMore(bound, entry.definition);
      bound := Bound(bound.tools + [entry.definition], bound.targets + {entry.registered});
      k := k + 1;
    }
    assert Definitions(statics)[..k] == Definitions(statics);
    result := Ok(bound);
  }

  /** The sources' tools, source by source. */
  method BindListings(statics: seq<StaticTool>, listings: seq<Listing>, first: Bound, control: Control)
    returns (result: Result<Bound, CatalogError>)
    requires Consistent(first) && first.tools == Definitions(statics)
    modifies control
    ensures result.Ok? ==> Consistent(result.value) && result.value.tools == Definitions(statics) + Listed(listings)
    ensures result.Ok? ==> forall k :: 0 <= k < |listings| ==> listings[k].Some?
    ensures result.Err? ==> Hinders(statics, listings, control.HasStopped(), result.error)
  {
    var bound, k := first, 0;
    assert listings[..0] == [] && bound.tools + [] == bound.tools;
    while k < |listings|
      invariant 0 <= k <= |listings|
      invariant Consistent(bound) && bound.tools == Definitions(statics) + Listed(listings[..k])
      invariant forall i :: 0 <= i < k ==> listings[i].Some?
    {
      var stopped := control.IsStopped();
      if stopped {
        return Err(ControlStopped);
      }
      if listings[k].None? {
        return Err(ListingFailed(k));
      }
      assert listings[..k + 1][..k] == listings[..k];
      var added := AddListing(bound, listings[k].value);
      if added.Err? {
        assert Definitions(statics) + Listed(listings[..k]) + listings[k].value ==
               Definitions(statics) + Listed(listings[..k + 1]);
        ClashStays(statics, listings, k + 1);
        return Err(added.error);
      }
      bound := added.value;
      k := k + 1;
    }
    assert listings[..k] == listings;
    result := Ok(bound);
  }

  /**
   Fixes an ordered catalog for one invocation. A bound catalog offers every static and listed tool
   in order, each name once, with exactly those names as targets.
   */
  method Bind(statics: seq<StaticTool>, listings: seq<Listing>, control: Control)
    returns (result: Result<Bound, CatalogError>)
    requires RegisteredOnce(statics)
    modifies control
    ensures result.Ok? ==> Consistent(result.value) && result.value.tools == Definitions(statics) + Listed(listings)
    ensures result.Ok? ==> KeepNames(statics) && forall k :: 0 <= k < |listings| ==> listings[k].Some?
    ensures result.Err? ==> Hinders(statics, listings, control.HasStopped(), result.error)
  {
    var stopped := control.IsStopped();
    if stopped {
      return Err(ControlStopped);
    }
    var bound := BindStatics(statics, control);
    if bound.Err? {
      return bound;
    }
    bound := BindListings(statics, listings, bound.value, control);
    if bound.Err? {
      return bound;
    }
    stopped := control.IsStopped();
    result := if stopped then Err(ControlStopped) else bound;
  }
}

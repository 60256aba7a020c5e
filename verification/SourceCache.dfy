/**
 The cached tool listing of a dynamic source. Calls run side by side and may be interrupted
 anywhere; each critical section is one step.
 */
module SourceCache {
  import opened Wrappers
  import opened ToolSets

  type CallId = nat

  datatype Cache = Cache(listing: Option<(nat, Tools)>, latest: Option<CallId>)

  /** Where a call of `describe` is. */
  datatype Phase =
    | Observed(version: nat)
    | Refreshing(version: nat)
    | Listed(version: nat, tools: Tools)
    | Compared(version: nat, tools: Tools, after: nat)
    | Returned(version: nat, answer: Answer)

  datatype Answer = Hit(tools: Tools) | Fetched(tools: Tools, at: nat) | Aborted

  /** `version` is the source's own; a listing depends on nothing else. */
  datatype World = World(cache: Cache, version: nat, calls: map<CallId, Phase>)

  type Catalog = nat -> Tools

  /**
   What can happen next: the source moves on, a call reads the version, takes the lock, gets its
   listing, reads the version again, takes the lock again, or fails or is stopped on the way.
   */
  datatype Step =
    | Bump
    | Observe(id: CallId)
    | Enter(id: CallId)
    | List(id: CallId)
    | Compare(id: CallId)
    | Publish(id: CallId)
    | Abort(id: CallId)

  // -- the critical sections -----------------------------------------------------------------

  predicate IsHit(cache: Cache, observed: nat) {
    cache.listing.Some? && cache.listing.value.0 == observed
  }

  function Entered(cache: Cache, observed: nat, id: CallId): Cache {
    if IsHit(cache, observed) then cache else Cache(None, Some(id))
  }

  function Published(cache: Cache, observed: nat, after: nat, id: CallId, tools: Tools): Cache {
    if observed == after && cache.latest == Some(id) then cache.(listing := Some((observed, tools))) else cache
  }

  /** The mutex-guarded fields, one method per critical section. */
  class DynamicEntry {
    var listing: Option<(nat, Tools)>
    var latestRefresh: Option<CallId>

    ghost function Current(): Cache
      reads this
    {
      Cache(listing, latestRefresh)
    }

    constructor ()
      ensures Current() == Cache(None, None)
    {
      listing, latestRefresh := None, None;
    }

    /** A hit, or the start of a refresh that hides the old listing. */
    method Begin(observed: nat, refresh: CallId) returns (hit: Option<Tools>)
      modifies this
      ensures Current() == Entered(old(Current()), observed, refresh)
      ensures hit.Some? <==> IsHit(old(Current()), observed)
      ensures hit.Some? ==> old(listing) == Some((observed, hit.value))
    {
      if listing.Some? && listing.value.0 == observed {
        return Some(listing.value.1);
      }
      listing := None;
      latestRefresh := Some(refresh);
      hit := None;
    }

    /** Stores a listing if the version held still and no later refresh began. */
    method Store(observed: nat, after: nat, refresh: CallId, descriptions: Tools)
      modifies this
      ensures Current() == Published(old(Current()), observed, after, refresh, descriptions)
    {
      if observed == after && latestRefresh.Some? && latestRefresh.value == refresh {
        listing := Some((observed, descriptions));
      }
    }
  }

  // -- steps -------------------------------------------------------------------------------------

  predicate Enabled(w: World, step: Step) {
    match step
    case Bump => true
    case Observe(id) => id !in w.calls
    case Enter(id) => id in w.calls && w.calls[id].Observed?
    case List(id) => id in w.calls && w.calls[id].Refreshing?
    case Compare(id) => id in w.calls && w.calls[id].Listed?
    case Publish(id) => id in w.calls && w.calls[id].Compared?
    case Abort(id) => id in w.calls && (w.calls[id].Refreshing? || w.calls[id].Listed?)
  }

  function Move(w: World, id: CallId, phase: Phase): World {
    w.(calls := w.calls[id := phase])
  }

  function Next(catalog: Catalog, w: World, step: Step): World {
    if !Enabled(w, step) then w
    else
      match step
      case Bump => w.(version := w.version + 1)
      case Observe(id) => Move(w, id, Observed(w.version))
      case Enter(id) =>
        var observed := w.calls[id].version;
        if IsHit(w.cache, observed) then Move(w, id, Returned(observed, Hit(w.cache.listing.value.1)))
        else Move(w.(cache := Entered(w.cache, observed, id)), id, Refreshing(observed))
      case List(id) => Move(w, id, Listed(w.calls[id].version, catalog(w.version)))
      case Compare(id) => Move(w, id, Compared(w.calls[id].version, w.calls[id].tools, w.version))
      case Publish(id) =>
        var c := w.calls[id];
        Move(w.(cache := Published(w.cache, c.version, c.after, id, c.tools)), id, Returned(c.version, Fetched(c.tools, c.after)))
      case Abort(id) => Move(w, id, Returned(w.calls[id].version, Aborted))
  }

  function RunAll(catalog: Catalog, steps: seq<Step>): World {
    if steps == [] then World(Cache(None, None), 0, map[])
    else Next(catalog, RunAll(catalog, steps[..|steps| - 1]), steps[|steps| - 1])
  }

  // -- what holds in every world -------------------------------------------------------------------

  /** A listing taken between reading the version and reading it again unchanged is that version's. */
  predicate PhaseSound(catalog: Catalog, w: World, phase: Phase) {
    && phase.version <= w.version
    && match phase
       case Observed(_) => true
       case Refreshing(_) => true
       case Listed(v, tools) => v == w.version ==> tools == catalog(v)
       case Compared(v, tools, after) => v <= after <= w.version && (v == after ==> tools == catalog(v))
       case Returned(v, answer) =>
         (match answer
          case Hit(tools) => tools == catalog(v)
          case Fetched(tools, at) => v <= at && (v == at ==> tools == catalog(v))
          case Aborted => true)
  }

  /** A stored listing was published by the refresh that began last, and says what the source said. */
  predicate CacheSound(catalog: Catalog, w: World) {
    w.cache.listing.Some? ==>
      var (v, tools) := w.cache.listing.value;
      && tools == catalog(v) && v <= w.version
      && w.cache.latest.Some? && w.cache.latest.value in w.calls
      && w.calls[w.cache.latest.value] == Returned(v, Fetched(tools, v))
  }

  ghost predicate Sound(catalog: Catalog, w: World) {
    && CacheSound(catalog, w)
    && (w.cache.latest.Some? ==> w.cache.latest.value in w.calls)
    && forall id :: id in w.calls ==> PhaseSound(catalog, w, w.calls[id])
  }

  lemma {:induction false} StepKeepsSound(catalog: Catalog, w: World, step: Step)
    requires Sound(catalog, w)
    ensures Sound(catalog, Next(catalog, w, step))
  {
    var next := Next(catalog, w, step);
    if Enabled(w, step) {
      forall id | id in next.calls ensures PhaseSound(catalog, next, next.calls[id]) {
        if id in w.calls {
          assert PhaseSound(catalog, w, w.calls[id]);
        }
      }
      if step.Publish? {
        assert PhaseSound(catalog, w, w.calls[step.id]);
      }
    }
  }

  /** In every reachable world the cache and every answer agree with the source. */
  lemma {:induction false} AlwaysSound(catalog: Catalog, steps: seq<Step>)
    ensures Sound(catalog, RunAll(catalog, steps))
    decreases |steps|
  {
    if steps != [] {
      AlwaysSound(catalog, steps[..|steps| - 1]);
      StepKeepsSound(catalog, RunAll(catalog, steps[..|steps| - 1]), steps[|steps| - 1]);
    }
  }

  /** Every hit answered with the catalog of the version it observed. */
  lemma HitsAreCurrent(catalog: Catalog, steps: seq<Step>, id: CallId)
    requires var w := RunAll(catalog, steps); id in w.calls && w.calls[id].Returned? && w.calls[id].answer.Hit?
    ensures var call := RunAll(catalog, steps).calls[id]; call.answer.tools == catalog(call.version)
  {
    AlwaysSound(catalog, steps);
    assert PhaseSound(catalog, RunAll(catalog, steps), RunAll(catalog, steps).calls[id]);
  }

  /** After the refresh that began last has failed, or saw the version move, nothing is stored. */
  lemma FailedRefreshHidesListing(catalog: Catalog, steps: seq<Step>, id: CallId)
    requires var w := RunAll(catalog, steps); w.cache.latest == Some(id) && id in w.calls
    requires var call := RunAll(catalog, steps).calls[id];
             !(call.Returned? && call.answer.Fetched? && call.answer.at == call.version)
    ensures RunAll(catalog, steps).cache.listing.None?
  {
    AlwaysSound(catalog, steps);
  }

  /** Until another refresh begins, a published listing stays, and a call that observes its version hits. */
  lemma PublishedStays(catalog: Catalog, w: World, step: Step)
    requires Sound(catalog, w) && w.cache.listing.Some?
    requires step.Enter? && Enabled(w, step) ==> w.calls[step.id].version == w.cache.listing.value.0
    ensures Next(catalog, w, step).cache.listing == w.cache.listing
    ensures step.Enter? && Enabled(w, step) ==>
              Next(catalog, w, step).calls[step.id] == Returned(w.cache.listing.value.0, Hit(catalog(w.cache.listing.value.0)))
  {
    if step.Publish? && Enabled(w, step) {
      assert w.calls[step.id].Compared?;
    }
  }

  /** The refresh that began last, once it has fetched at the version it observed, is what is stored. */
  ghost predicate LatestIsStored(w: World) {
    w.cache.latest.Some? && w.cache.latest.value in w.calls ==>
      match w.calls[w.cache.latest.value]
      case Returned(v, Fetched(tools, at)) => v == at ==> w.cache.listing == Some((v, tools))
      case Returned(_, Hit(_)) => false
      case _ => true
  }

  lemma {:induction false} StepStoresLatest(catalog: Catalog, w: World, step: Step)
    requires Sound(catalog, w) && LatestIsStored(w)
    ensures LatestIsStored(Next(catalog, w, step))
  {
    if step.Publish? && Enabled(w, step) {
      assert PhaseSound(catalog, w, w.calls[step.id]);
    }
  }

  /**
   In every reachable world something is stored exactly when the refresh that began last has
   fetched a listing at the version it observed, and then it is that listing.
   */
  lemma {:induction false} StoredExactly(catalog: Catalog, steps: seq<Step>)
    ensures var w := RunAll(catalog, steps);
            && LatestIsStored(w)
            && (w.cache.listing.Some? <==>
                  && w.cache.latest.Some? && w.cache.latest.value in w.calls
                  && var call := w.calls[w.cache.latest.value];
                     call.Returned? && call.answer.Fetched? && call.answer.at == call.version)
    decreases |steps|
  {
    AlwaysSound(catalog, steps);
    if steps != [] {
      var before := steps[..|steps| - 1];
      AlwaysSound(catalog, before);
      StoredExactly(catalog, before);
      StepStoresLatest(catalog, RunAll(catalog, before), steps[|steps| - 1]);
    }
  }

  /** Once the source has moved on, what is stored answers no call that reads the new version. */
  lemma MovedOnMisses(catalog: Catalog, steps: seq<Step>)
    ensures var w := Next(catalog, RunAll(catalog, steps), Bump);
            !IsHit(w.cache, w.version)
  {
    AlwaysSound(catalog, steps);
  }

  // -- answers are of the call's own time --------------------------------------------------------------

  /** The listing is that of a version the source was at from `lo` to `hi`. */
  ghost predicate Sometime(catalog: Catalog, tools: Tools, lo: nat, hi: nat) {
    exists x: nat :: lo <= x <= hi && tools == catalog(x)
  }

  ghost predicate Timely(catalog: Catalog, now: nat, phase: Phase) {
    match phase
    case Listed(v, tools) => Sometime(catalog, tools, v, now)
    case Compared(v, tools, after) => Sometime(catalog, tools, v, after)
    case Returned(v, Fetched(tools, at)) => Sometime(catalog, tools, v, at)
    case _ => true
  }

  /** The step of this kind was taken while the source was at this version. */
  ghost predicate TakenAt(catalog: Catalog, steps: seq<Step>, step: Step, version: nat) {
    exists k :: 0 <= k < |steps| && steps[k] == step && RunAll(catalog, steps[..k]).version == version
  }

  ghost predicate ReadInTime(catalog: Catalog, steps: seq<Step>, id: CallId, phase: Phase) {
    && TakenAt(catalog, steps, Observe(id), phase.version)
    && match phase
       case Compared(_, _, after) => TakenAt(catalog, steps, Compare(id), after)
       case Returned(_, Fetched(_, at)) => TakenAt(catalog, steps, Compare(id), at)
       case _ => true
  }

  lemma TakenMore(catalog: Catalog, past: seq<Step>, last: Step, step: Step, version: nat)
    requires TakenAt(catalog, past, step, version) || (step == last && RunAll(catalog, past).version == version)
    ensures TakenAt(catalog, past + [last], step, version)
  {
    var steps := past + [last];
    assert steps[..|past|] == past && steps[|past|] == last;
    if TakenAt(catalog, past, step, version) {
      var k :| 0 <= k < |past| && past[k] == step && RunAll(catalog, past[..k]).version == version;
      assert steps[k] == step && steps[..k] == past[..k];
    }
  }

  lemma {:induction false} StepReadsInTime(catalog: Catalog, past: seq<Step>, last: Step, id: CallId)
    requires var w := RunAll(catalog, past); id in w.calls ==> ReadInTime(catalog, past, id, w.calls[id])
    requires id in Next(catalog, RunAll(catalog, past), last).calls
    ensures ReadInTime(catalog, past + [last], id, Next(catalog, RunAll(catalog, past), last).calls[id])
  {
    var w, phase := RunAll(catalog, past), Next(catalog, RunAll(catalog, past), last).calls[id];
    TakenMore(catalog, past, last, Observe(id), phase.version);
    match phase
    case Compared(_, _, after) => TakenMore(catalog, past, last, Compare(id), after);
    case Returned(_, Fetched(_, at)) => TakenMore(catalog, past, last, Compare(id), at);
    case _ =>
  }

  lemma {:induction false} StepKeepsTimely(catalog: Catalog, w: World, step: Step, id: CallId)
    requires Sound(catalog, w) && (id in w.calls ==> Timely(catalog, w.version, w.calls[id]))
    requires id in Next(catalog, w, step).calls
    ensures Timely(catalog, Next(catalog, w, step).version, Next(catalog, w, step).calls[id])
  {
    if id in w.calls {
      assert PhaseSound(catalog, w, w.calls[id]);
    }
    if step == List(id) && Enabled(w, step) {
      assert Sometime(catalog, catalog(w.version), w.calls[id].version, w.version);
    }
  }

  /**
   In every run a call's version is the source's own at the moment the call read it, and what it
   fetches is a listing the source had between that moment and the second reading.
   */
  lemma {:induction false} AnswersAreTimely(catalog: Catalog, steps: seq<Step>, id: CallId)
    requires id in RunAll(catalog, steps).calls
    ensures var w := RunAll(catalog, steps);
            ReadInTime(catalog, steps, id, w.calls[id]) && Timely(catalog, w.version, w.calls[id])
    decreases |steps|
  {
    if steps != [] {
      var past, last := steps[..|steps| - 1], steps[|steps| - 1];
      assert past + [last] == steps;
      AlwaysSound(catalog, past);
      if id in RunAll(catalog, past).calls {
        AnswersAreTimely(catalog, past, id);
      }
      StepReadsInTime(catalog, past, last, id);
      StepKeepsTimely(catalog, RunAll(catalog, past), last, id);
    }
  }
}

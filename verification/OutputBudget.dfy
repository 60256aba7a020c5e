/**
 The example processor that shortens tool output to a token budget: a binary search for how many
 characters to keep, then steps down until the text really fits. A text is a list of characters,
 each given by its UTF-8 bytes.
 */
module OutputBudget {
  import opened Wrappers
  import opened Json
  import opened Model
  import opened Blocks
  import opened ToolBatches
  import opened Handoff
  import opened Dispatch

  const NOTICE: string := ['\U{E2}', '\U{80}', '\U{A6}'] + " output truncated " + ['\U{E2}', '\U{80}', '\U{A6}']

  function Concat(chars: seq<string>): string {
    if chars == [] then "" else chars[0] + Concat(chars[1..])
  }

  function Head(keep: nat): (head: nat)
    ensures head <= keep
  {
    keep * 3 / 5
  }

  function Around(chars: seq<string>, head: nat, tail: nat): string
    requires head + tail <= |chars|
  {
    Concat(chars[..head]) + NOTICE + Concat(chars[|chars| - tail..])
  }

  /** The first three fifths and the last two fifths of what is kept, around the notice. */
  function Middle(chars: seq<string>, keep: nat): string {
    if keep >= |chars| then Concat(chars) else Around(chars, Head(keep), keep - Head(keep))
  }

  function NoteText(notes: seq<string>): string {
    if notes == [] then "" else NoteText(notes[..|notes| - 1]) + "\n- " + notes[|notes| - 1]
  }

  function Visible(text: string, notes: seq<string>): string {
    text + (if notes == [] then "" else "\n\nNotes:") + NoteText(notes)
  }

  /** The host's estimator; its text estimates need not grow with the text. */
  datatype Estimator = Estimator(text: string -> nat, media: MediaRef -> Option<nat>)

  function MediaTokens(e: Estimator, media: seq<MediaRef>): Option<nat> {
    if media == [] then Some(0)
    else
      var past, last := MediaTokens(e, media[..|media| - 1]), e.media(media[|media| - 1]);
      if past.None? || last.None? then None else Some(past.value + last.value)
  }

  /** Four bytes a token, rounded up; media cannot be estimated. */
  const BuiltIn := Estimator(s => (|s| + 3) / 4, _ => None)

  function Estimate(e: Estimator, text: string, notes: seq<string>, media: seq<MediaRef>): Option<nat> {
    var tokens := MediaTokens(e, media);
    if tokens.None? then None else Some(e.text(Visible(text, notes)) + tokens.value)
  }

  predicate Fits(e: Estimator, text: string, notes: seq<string>, media: seq<MediaRef>, budget: nat) {
    var tokens := Estimate(e, text, notes, media);
    tokens.Some? && tokens.value <= budget
  }

  predicate KeepFits(e: Estimator, chars: seq<string>, keep: nat, notes: seq<string>, media: seq<MediaRef>, budget: nat) {
    Fits(e, Middle(chars, keep), notes, media, budget)
  }

  // -- what fits, in other words ----------------------------------------------------------------

  /** The notes as they are shown, a line for each. */
  function NotesShown(notes: seq<string>): string {
    if notes == [] then "" else "\n- " + notes[0] + NotesShown(notes[1..])
  }

  predicate AllEstimated(e: Estimator, media: seq<MediaRef>) {
    forall k :: 0 <= k < |media| ==> e.media(media[k]).Some?
  }

  function MediaCost(e: Estimator, media: seq<MediaRef>): nat
    requires AllEstimated(e, media)
  {
    if media == [] then 0 else e.media(media[0]).value + MediaCost(e, media[1..])
  }

  lemma {:induction false} NotesFirst(notes: seq<string>)
    requires notes != []
    ensures NoteText(notes) == "\n- " + notes[0] + NoteText(notes[1..])
    decreases |notes|
  {
    if |notes| == 1 {
      assert notes[..0] == [] && notes[1..] == [];
      assert "" + "\n- " + notes[0] == "\n- " + notes[0] + "";
    } else {
      var early, last := notes[..|notes| - 1], notes[|notes| - 1];
      NotesFirst(early);
      assert notes[1..][..|notes| - 2] == early[1..];
      assert "\n- " + notes[0] + NoteText(early[1..]) + "\n- " + last ==
             "\n- " + notes[0] + (NoteText(early[1..]) + "\n- " + last);
    }
  }

  lemma {:induction false} NotesRead(notes: seq<string>)
    ensures NoteText(notes) == NotesShown(notes)
    decreases |notes|
  {
    if notes != [] {
      NotesFirst(notes);
      NotesRead(notes[1..]);
    }
  }

  lemma {:induction false} MediaRead(e: Estimator, media: seq<MediaRef>)
    ensures MediaTokens(e, media).Some? <==> AllEstimated(e, media)
    ensures AllEstimated(e, media) ==> MediaTokens(e, media).value == MediaCost(e, media)
    decreases |media|
  {
    if media != [] {
      var early, last := media[..|media| - 1], media[|media| - 1];
      MediaRead(e, early);
      assert forall k :: 0 <= k < |early| ==> media[k] == early[k];
      if AllEstimated(e, media) {
        CostLast(e, media);
      }
    }
  }

  lemma {:induction false} CostLast(e: Estimator, media: seq<MediaRef>)
    requires media != [] && AllEstimated(e, media)
    ensures AllEstimated(e, media[..|media| - 1])
    ensures MediaCost(e, media) == MediaCost(e, media[..|media| - 1]) + e.media(media[|media| - 1]).value
    decreases |media|
  {
    if |media| == 1 {
      assert media[..0] == [] && media[1..] == [];
    } else {
      CostLast(e, media[1..]);
      assert media[1..][..|media| - 2] == media[..|media| - 1][1..];
    }
  }

  /** A result fits when every medium can be estimated and the text with its notes and the media stay within the budget. */
  lemma {:induction false} FitsExactly(e: Estimator, text: string, notes: seq<string>, media: seq<MediaRef>, budget: nat)
    ensures Fits(e, text, notes, media, budget) <==>
              && AllEstimated(e, media)
              && e.text(if notes == [] then text else text + "\n\nNotes:" + NotesShown(notes)) + MediaCost(e, media) <= budget
  {
    MediaRead(e, media);
    NotesRead(notes);
    assert notes == [] ==> text + "" + "" == text;
  }

  // -- the search -----------------------------------------------------------------------------

  /** Fits for every shorter length too. */
  ghost predicate Shrinks(fits: nat -> bool, count: nat) {
    forall j: nat, k: nat :: j <= k <= count && fits(k) ==> fits(j)
  }

  /**
   Ends for every estimator, and what it returns fits. When whatever fits also fits shortened, it is
   the longest that fits.
   */
  method Search(fits: nat -> bool, count: nat) returns (keep: Option<nat>)
    ensures keep.Some? ==> keep.value <= count && fits(keep.value)
    ensures keep.None? ==> !fits(0)
    ensures Shrinks(fits, count) && fits(0) ==> keep.Some? && forall k :: keep.value < k <= count ==> !fits(k)
  {
    var low: nat, high: nat := 0, count;
    ghost var ordered := Shrinks(fits, count) && fits(0);
    while low < high
      invariant low <= high <= count
      invariant ordered ==> fits(low) && forall k :: high < k <= count ==> !fits(k)
    {
      var mid: nat := low + (high - low + 1) / 2;
      if fits(mid) {
        low := mid;
      } else {
        high := mid - 1;
      }
    }
    while !fits(low)
      invariant low <= count
      invariant ordered ==> fits(low) && forall k :: low < k <= count ==> !fits(k)
      decreases low
    {
      if low == 0 {
        return None;
      }
      low := low - 1;
    }
    keep := Some(low);
  }

  /** Whatever fits, every shorter text fits too. */
  ghost predicate Downward(e: Estimator, chars: seq<string>, notes: seq<string>, media: seq<MediaRef>, budget: nat) {
    Shrinks(Keeping(e, chars, notes, media, budget), |chars|)
  }

  function Keeping(e: Estimator, chars: seq<string>, notes: seq<string>, media: seq<MediaRef>, budget: nat): nat -> bool {
    (keep: nat) => KeepFits(e, chars, keep, notes, media, budget)
  }

  // -- the built-in estimate --------------------------------------------------------------------

  lemma {:induction false} ConcatSplit(a: seq<string>, b: seq<string>)
    ensures |Concat(a + b)| == |Concat(a)| + |Concat(b)|
    decreases |a|
  {
    if a == [] {
      assert a + b == b;
    } else {
      assert (a + b)[1..] == a[1..] + b;
      ConcatSplit(a[1..], b);
    }
  }

  lemma ConcatOneMore(chars: seq<string>, n: nat)
    requires n < |chars|
    ensures |Concat(chars[..n + 1])| == |Concat(chars[..n])| + |chars[n]|
    ensures |Concat(chars[n..])| == |chars[n]| + |Concat(chars[n + 1..])|
  {
    assert chars[..n + 1] == chars[..n] + [chars[n]] && chars[n..][1..] == chars[n + 1..];
    ConcatSplit(chars[..n], [chars[n]]);
    assert [chars[n]][1..] == [];
  }

  lemma HeadStep(keep: nat)
    ensures Head(keep + 1) == Head(keep) || Head(keep + 1) == Head(keep) + 1
  {
  }

  lemma AroundMore(chars: seq<string>, head: nat, tail: nat)
    requires head + tail < |chars|
    ensures |Around(chars, head + 1, tail)| == |Around(chars, head, tail)| + |chars[head]|
    ensures |Around(chars, head, tail + 1)| == |Around(chars, head, tail)| + |chars[|chars| - tail - 1]|
  {
    ConcatOneMore(chars, head);
    ConcatOneMore(chars, |chars| - tail - 1);
  }

  /** The character that `keep + 1` keeps and `keep` does not: at the head if the head grew, else at the tail. */
  function NextChar(chars: seq<string>, head: nat, next: nat, keep: nat): string
    requires head <= keep && keep + 1 < |chars|
  {
    if next > head then chars[head] else chars[|chars| - (keep - head) - 1]
  }

  /** Keeping one more character, short of all of them, adds exactly that character. */
  lemma {:induction false} GrowsByOne(chars: seq<string>, keep: nat)
    requires keep + 1 < |chars|
    ensures |Middle(chars, keep + 1)| == |Middle(chars, keep)| + |NextChar(chars, Head(keep), Head(keep + 1), keep)|
  {
    HeadStep(keep);
    AroundMore(chars, Head(keep), keep - Head(keep));
  }

  lemma {:induction false} Rising(f: nat -> nat, j: nat, k: nat)
    requires j <= k && forall i: nat :: j <= i < k ==> f(i) <= f(i + 1)
    ensures f(j) <= f(k)
    decreases k - j
  {
    if j < k {
      Rising(f, j, k - 1);
      assert f(k - 1) <= f(k - 1 + 1);
    }
  }

  function MiddleSize(chars: seq<string>): nat -> nat {
    (keep: nat) => |Middle(chars, keep)|
  }

  lemma NeverShrinks(chars: seq<string>, i: nat)
    requires i + 1 < |chars|
    ensures MiddleSize(chars)(i) <= MiddleSize(chars)(i + 1)
  {
    GrowsByOne(chars, i);
  }

  lemma Grows(chars: seq<string>, j: nat, k: nat)
    requires j <= k < |chars|
    ensures MiddleSize(chars)(j) <= MiddleSize(chars)(k)
  {
    var size := MiddleSize(chars);
    forall i: nat | j <= i < k ensures size(i) <= size(i + 1) {
      NeverShrinks(chars, i);
    }
    Rising(size, j, k);
  }

  /** Once the whole text is known not to fit, the built-in estimate never likes more over less. */
  lemma BuiltInIsDownward(chars: seq<string>, notes: seq<string>, media: seq<MediaRef>, budget: nat)
    requires !Fits(BuiltIn, Concat(chars), notes, media, budget)
    ensures Downward(BuiltIn, chars, notes, media, budget)
  {
    forall j: nat, k: nat | j <= k <= |chars| && KeepFits(BuiltIn, chars, k, notes, media, budget)
      ensures KeepFits(BuiltIn, chars, j, notes, media, budget)
    {
      if k < |chars| {
        Grows(chars, j, k);
        assert |Visible(Middle(chars, j), notes)| <= |Visible(Middle(chars, k), notes)|;
      }
    }
  }

  // -- one result ---------------------------------------------------------------------------------

  /** Splitting text into characters, each of one to four bytes. */
  ghost predicate Splits(split: string -> seq<string>) {
    forall s :: Concat(split(s)) == s && (s != "" ==> split(s) != [])
  }

  /** `unlimited` stands for the largest budget, which skips the check. */
  datatype Policy = Policy(estimator: Estimator, split: string -> seq<string>, codec: Codec, budget: string -> Option<nat>,
                           store: Option<string -> Option<string>>)

  datatype BudgetError = NoEstimate | OverBudget | StoreFailed

  function TextOf(p: Policy, content: Json): string {
    if content.Str? then content.s else p.codec.print_(content)
  }

  /** Where the serialised original is kept, when there is a store. */
  function StoredAs(p: Policy, content: Json): Option<string> {
    if p.store.Some? then p.store.value(p.codec.print_(content)) else None
  }

  /** The text with its middle, if it lost any, replaced by the notice: three fifths of what is kept, then two. */
  predicate KeptAround(chars: seq<string>, keep: nat, text: string) {
    var head := keep * 3 / 5;
    if keep >= |chars| then text == Concat(chars)
    else text == Concat(chars[..head]) + "\U{E2}\U{80}\U{A6} output truncated \U{E2}\U{80}\U{A6}"
                 + Concat(chars[|chars| - (keep - head)..])
  }

  /** What a shortened output may be: text around the notice that fits, and what it replaced. */
  predicate Shortened(p: Policy, was: ToolResult, now: ToolResult, budget: nat) {
    && now == was.(output := now.output)
    && now.output.truncated && now.output.content.Str? && now.output.reason == was.output.reason
    && Fits(p.estimator, now.output.content.s, was.notes, was.media, budget)
    && now.output.originalTokens == Some(p.estimator.text(TextOf(p, was.output.content)))
    && now.output.artifact == StoredAs(p, was.output.content) && (p.store.Some? ==> now.output.artifact.Some?)
    && exists keep :: 0 <= keep <= |p.split(TextOf(p, was.output.content))|
                      && KeptAround(p.split(TextOf(p, was.output.content)), keep, now.output.content.s)
  }

  /** Left alone, or shortened to fit. */
  ghost predicate Budgeted(p: Policy, tool: string, was: ToolResult, now: ToolResult) {
    var budget := p.budget(tool);
    if budget.None? || Fits(p.estimator, TextOf(p, was.output.content), was.notes, was.media, budget.value) then now == was
    else Shortened(p, was, now, budget.value)
  }

  /** Keeping any more characters would not fit. */
  ghost predicate Longest(p: Policy, was: ToolResult, now: ToolResult, budget: nat) {
    var chars := p.split(TextOf(p, was.output.content));
    exists keep :: 0 <= keep <= |chars| && now.output.content == Str(Middle(chars, keep)) && LastFit(p, was, keep, budget)
  }

  ghost predicate LastFit(p: Policy, was: ToolResult, keep: nat, budget: nat) {
    var chars := p.split(TextOf(p, was.output.content));
    && KeepFits(p.estimator, chars, keep, was.notes, was.media, budget)
    && forall k :: keep < k <= |chars| ==> !KeepFits(p.estimator, chars, k, was.notes, was.media, budget)
  }

  /** Not even the notice fits, or keeping nothing does not. */
  predicate Hopeless(p: Policy, was: ToolResult, budget: nat) {
    || !Fits(p.estimator, NOTICE, was.notes, was.media, budget)
    || !KeepFits(p.estimator, p.split(TextOf(p, was.output.content)), 0, was.notes, was.media, budget)
  }

  /** How many characters to keep of a text that does not fit. */
  method ChooseKeep(p: Policy, was: ToolResult, chars: seq<string>, budget: nat) returns (keep: Option<nat>)
    requires chars == p.split(TextOf(p, was.output.content))
    requires !Fits(p.estimator, TextOf(p, was.output.content), was.notes, was.media, budget)
    ensures keep.Some? ==> keep.value <= |chars| && KeepFits(p.estimator, chars, keep.value, was.notes, was.media, budget)
    ensures keep.None? ==> !KeepFits(p.estimator, chars, 0, was.notes, was.media, budget)
    ensures keep.Some? && p.estimator == BuiltIn && Splits(p.split) ==> LastFit(p, was, keep.value, budget)
  {
    var fits := Keeping(p.estimator, chars, was.notes, was.media, budget);
    keep := Search(fits, |chars|);
    if keep.Some? && p.estimator == BuiltIn && Splits(p.split) {
      LongestKept(p, was, budget, keep.value);
      forall k: nat | keep.value < k <= |chars| ensures !KeepFits(BuiltIn, chars, k, was.notes, was.media, budget) {
        assert !fits(k);
      }
    }
  }

  lemma MiddleIsKept(chars: seq<string>, keep: nat)
    ensures KeptAround(chars, keep, Middle(chars, keep))
  {
    assert NOTICE == "\U{E2}\U{80}\U{A6} output truncated \U{E2}\U{80}\U{A6}";
  }

  method Shorten(p: Policy, tool: string, was: ToolResult) returns (result: Result<ToolResult, BudgetError>)
    ensures result.Ok? ==> Budgeted(p, tool, was, result.value)
    ensures result.Ok? ==> result.value.status == was.status && result.value.notes == was.notes
                           && result.value.callBlockId == was.callBlockId && result.value.media == was.media
    ensures result == Err(OverBudget) ==> p.budget(tool).Some? && Hopeless(p, was, p.budget(tool).value)
    ensures result == Err(StoreFailed) ==> p.store.Some? && StoredAs(p, was.output.content).None?
    ensures result.Ok? && result.value != was && p.estimator == BuiltIn && Splits(p.split) ==>
              Longest(p, was, result.value, p.budget(tool).value)
  {
    var limit := p.budget(tool);
    if limit.None? {
      return Ok(was);
    }
    var budget, text := limit.value, TextOf(p, was.output.content);
    var whole := Estimate(p.estimator, text, was.notes, was.media);
    if whole.None? {
      return Err(NoEstimate);
    }
    if whole.value <= budget {
      return Ok(was);
    }
    if !Fits(p.estimator, NOTICE, was.notes, was.media, budget) {
      return Err(OverBudget);
    }
    var chars := p.split(text);
    var keep := ChooseKeep(p, was, chars, budget);
    if keep.None? {
      return Err(OverBudget);
    }
    var artifact := None;
    if p.store.Some? {
      artifact := p.store.value(p.codec.print_(was.output.content));
      if artifact.None? {
        return Err(StoreFailed);
      }
    }
    MiddleIsKept(chars, keep.value);
    var output := ToolOutput(Str(Middle(chars, keep.value)), true, was.output.reason,
                             Some(p.estimator.text(text)), artifact);
    result := Ok(was.(output := output));
  }

  /** With the built-in estimate the kept text is the longest that fits. */
  lemma LongestKept(p: Policy, was: ToolResult, budget: nat, keep: nat)
    requires p.estimator == BuiltIn && Splits(p.split)
    requires !Fits(BuiltIn, TextOf(p, was.output.content), was.notes, was.media, budget)
    requires KeepFits(BuiltIn, p.split(TextOf(p, was.output.content)), keep, was.notes, was.media, budget)
    requires keep <= |p.split(TextOf(p, was.output.content))|
    ensures KeepFits(BuiltIn, p.split(TextOf(p, was.output.content)), 0, was.notes, was.media, budget)
    ensures Downward(BuiltIn, p.split(TextOf(p, was.output.content)), was.notes, was.media, budget)
  {
    var chars := p.split(TextOf(p, was.output.content));
    assert Concat(chars) == TextOf(p, was.output.content);
    BuiltInIsDownward(chars, was.notes, was.media, budget);
    assert Keeping(BuiltIn, chars, was.notes, was.media, budget)(keep);
    assert Keeping(BuiltIn, chars, was.notes, was.media, budget)(0);
  }

  // -- the processor ------------------------------------------------------------------------------

  /** Entry `i` after the processor has passed it. */
  ghost predicate Passed(p: Policy, was: Entry, now: Entry) {
    && now.call == was.call && was.result.Some? && now.result.Some? && now.result.value.id == was.result.value.id
    && Budgeted(p, was.call.input.toolName, was.result.value.payload, now.result.value.payload)
  }

  lemma PassedMayBecome(p: Policy, was: Entry, now: Entry)
    requires Passed(p, was, now)
    ensures EntryMayBecome(SnapshotOf(was), SnapshotOf(now), After)
    ensures now.Id() == was.Id() && now.result.value.payload.callBlockId == was.result.value.payload.callBlockId
  {
  }

  /**
   Shortens the completed results in place, in order, up to the first that cannot be. The entries
   from that one on are untouched, and the batch stays one the after phase accepts.
   */
  method ProcessResults(p: Policy, batch: ToolBatch) returns (error: Option<BudgetError>, ghost done: nat)
    requires Sound(batch.Current())
    modifies batch
    ensures |batch.entries| == |old(batch.entries)| && batch.completed == old(batch.completed) && done <= batch.completed
    ensures error.None? ==> done == batch.completed
    ensures forall i :: 0 <= i < done ==> Passed(p, old(batch.entries)[i], batch.entries[i])
    ensures forall i :: done <= i < |batch.entries| ==> batch.entries[i] == old(batch.entries)[i]
  {
    done := 0;
    var k := 0;
    ghost var first := batch.entries;
    while k < batch.completed
      invariant 0 <= k <= batch.completed <= |batch.entries| && done == k
      invariant |batch.entries| == |first| && batch.completed == old(batch.completed)
      invariant forall i :: 0 <= i < k ==> Passed(p, first[i], batch.entries[i])
      invariant forall i :: k <= i < |first| ==> batch.entries[i] == first[i]
    {
      var entry := batch.entries[k];
      assert Placed(old(batch.Current()), k);
      var shortened := Shorten(p, entry.call.input.toolName, entry.result.value.payload);
      if shortened.Err? {
        error := Some(shortened.error);
        return;
      }
      var now := entry.(result := Some(entry.result.value.(payload := shortened.value)));
      assert Passed(p, first[k], now);
      batch.entries := batch.entries[k := now];
      k, done := k + 1, done + 1;
    }
    error := None;
  }

  /** What the processor leaves is an accepted after-phase handoff. */
  lemma BudgetIsAccepted(p: Policy, before: Batch, after: Batch, done: nat)
    requires Sound(before) && |after.entries| == |before.entries| && after.completed == before.completed
    requires done <= before.completed
    requires forall i :: 0 <= i < done ==> Passed(p, before.entries[i], after.entries[i])
    requires forall i :: done <= i < |before.entries| ==> after.entries[i] == before.entries[i]
    ensures Sound(after) && Transition(Capture(before), Capture(after), After)
  {
    forall i | 0 <= i < |before.entries| ensures SameShape(before.entries[i], after.entries[i]) {
      if i < done {
        PassedMayBecome(p, before.entries[i], after.entries[i]);
      }
    }
    SameShapesSound(before, after);
    SameShapesTransition(before, after);
  }

  /** Only the output of a recorded result may differ. */
  predicate SameShape(was: Entry, now: Entry) {
    && was.Id() == now.Id() && was.result.Some? == now.result.Some?
    && (was.result.Some? ==> was.result.value.id == now.result.value.id
                             && was.result.value.payload.callBlockId == now.result.value.payload.callBlockId)
    && EntryMayBecome(SnapshotOf(was), SnapshotOf(now), After)
  }

  lemma SameShapesSound(before: Batch, after: Batch)
    requires Sound(before) && |after.entries| == |before.entries| && after.completed == before.completed
    requires forall i :: 0 <= i < |before.entries| ==> SameShape(before.entries[i], after.entries[i])
    ensures Sound(after)
  {
    forall i | 0 <= i < |after.entries| ensures Placed(after, i) {
      assert Placed(before, i) && SameShape(before.entries[i], after.entries[i]);
    }
    forall i | 0 <= i < |after.entries| && after.entries[i].result.Some?
      ensures !IsDeclared(after.entries, after.entries[i].result.value.id)
    {
      assert SameShape(before.entries[i], after.entries[i]);
      assert !IsDeclared(before.entries, before.entries[i].result.value.id);
      forall j | 0 <= j < |after.entries| ensures after.entries[j].Id() != after.entries[i].result.value.id {
        assert SameShape(before.entries[j], after.entries[j]);
      }
    }
  }

  lemma SameShapesKeys(before: Batch, after: Batch)
    requires Sound(before) && Sound(after) && |after.entries| == |before.entries|
    requires forall i :: 0 <= i < |before.entries| ==> SameShape(before.entries[i], after.entries[i])
    ensures View(before.entries).Keys == View(after.entries).Keys
  {
    MembersAreKeys(before.entries);
    MembersAreKeys(after.entries);
    SameIdsSameMembers(before.entries, after.entries);
  }

  lemma SameIdsSameMembers(a: seq<Entry>, b: seq<Entry>)
    requires |a| == |b| && forall i :: 0 <= i < |a| ==> SameShape(a[i], b[i])
    ensures Members(a) == Members(b)
  {
    forall i | 0 <= i < |a| ensures a[i].Id() == b[i].Id() {
      assert SameShape(a[i], b[i]);
    }
  }

  lemma SameShapesEntry(before: Batch, after: Batch, id: BlockId)
    requires Sound(before) && Sound(after) && |after.entries| == |before.entries|
    requires forall i :: 0 <= i < |before.entries| ==> SameShape(before.entries[i], after.entries[i])
    requires id in View(before.entries) && id in View(after.entries)
    ensures EntryMayBecome(SnapshotOf(View(before.entries)[id]), SnapshotOf(View(after.entries)[id]), After)
  {
    var i :| 0 <= i < |before.entries| && before.entries[i].Id() == id;
    assert SameShape(before.entries[i], after.entries[i]);
    assert View(before.entries)[before.entries[i].Id()] == before.entries[i];
    assert View(after.entries)[after.entries[i].Id()] == after.entries[i];
  }

  lemma SameShapesTransition(before: Batch, after: Batch)
    requires Sound(before) && Sound(after) && |after.entries| == |before.entries| && after.completed == before.completed
    requires forall i :: 0 <= i < |before.entries| ==> SameShape(before.entries[i], after.entries[i])
    ensures Transition(Capture(before), Capture(after), After)
  {
    SameShapesKeys(before, after);
    forall id | id in View(before.entries)
      ensures EntryMayBecome(SnapshotOf(View(before.entries)[id]), SnapshotOf(View(after.entries)[id]), After)
    {
      SameShapesEntry(before, after, id);
    }
    TransitionByEntries(before, after, After);
  }
}

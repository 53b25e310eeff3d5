/**
 Classic-mode compaction: the oldest visible transcript events are summarised
 into memory and marked, so that they leave the prompt.
 */
module Compaction {
  import opened Options
  import opened LogText
  import opened EventLog

  predicate Selectable(e: Event) {
    e.kind != "context_action" && e.kind != "system_note"
  }

  function SelectableOf(es: seq<Event>): seq<Event>
    decreases |es|
  {
    if es == [] then []
    else SelectableOf(es[..|es| - 1]) + if Selectable(es[|es| - 1]) then [es[|es| - 1]] else []
  }

  /** How many of `n` selectable events one compaction takes, before the list runs out. */
  function ChunkSize(n: nat, fraction: real): nat {
    var share := (n as real * fraction).Floor;
    if share < 2 then 2 else share
  }

  function Take(all: seq<Event>, fraction: real): seq<Event> {
    var n := ChunkSize(|all|, fraction);
    if |all| < 4 then [] else if n < |all| then all[..n] else all
  }

  /** The events one compaction takes from those visible and unmarked. */
  function Chunk(visible: seq<Event>, fraction: real): seq<Event> {
    Take(SelectableOf(visible), fraction)
  }

  /** A chunk is empty or holds two to half of the selectable events, oldest first. */
  lemma {:induction false} ChunkBounds(all: seq<Event>, fraction: real)
    requires 0.05 <= fraction <= 0.5
    ensures var chunk := Take(all, fraction);
            && chunk <= all
            && (|all| < 4 <==> chunk == [])
            && (|all| >= 4 ==> 2 <= |chunk| && 2 * |chunk| <= |all|)
  {
    ChunkSizeBounds(|all|, fraction);
  }

  /** It holds the fraction asked for, rounded down, but two events at least. */
  lemma {:induction false} ChunkIsTheShare(all: seq<Event>, fraction: real)
    requires 0.05 <= fraction <= 0.5 && |all| >= 4
    ensures var chunk := Take(all, fraction);
            && |all| as real * fraction < |chunk| as real + 1.0
            && (|chunk| > 2 ==> |chunk| as real <= |all| as real * fraction)
            && (|chunk| == 2 ==> |all| as real * fraction < 3.0)
  {
    ChunkSizeBounds(|all|, fraction);
  }

  lemma {:induction false} ChunkSizeBounds(n: nat, fraction: real)
    requires 0.05 <= fraction <= 0.5
    ensures 2 <= ChunkSize(n, fraction)
    ensures n >= 4 ==> 2 * ChunkSize(n, fraction) <= n
  {
    ShareIsAtMostHalf(n, fraction);
  }

  lemma {:induction false} ShareIsAtMostHalf(n: nat, fraction: real)
    requires fraction <= 0.5
    ensures 2 * (n as real * fraction).Floor <= n
  {
    TimesHalf(n as real, fraction);
    var share := (n as real * fraction).Floor;
    assert share as real <= n as real * 0.5;
    assert (2 * share) as real == 2.0 * share as real;
  }

  lemma {:induction false} TimesHalf(x: real, f: real)
    requires x >= 0.0 && f <= 0.5
    ensures x * f <= x * 0.5
  {
  }

  lemma {:induction false} SelectableProperty(es: seq<Event>)
    ensures forall e :: e in SelectableOf(es) <==> e in es && Selectable(e)
    decreases |es|
  {
    if es != [] {
      SelectableProperty(es[..|es| - 1]);
      assert es == es[..|es| - 1] + [es[|es| - 1]];
    }
  }

  /** What is selectable keeps its order, and only the kernel's own events are left out. */
  lemma {:induction false} SelectingKeepsOrder(a: seq<Event>, e: Event, b: seq<Event>)
    ensures SelectableOf(a + [e] + b)
            == SelectableOf(a) + (if e.kind == "context_action" || e.kind == "system_note" then [] else [e])
               + SelectableOf(b)
    decreases |b|
  {
    if b == [] {
      assert a + [e] + b == a + [e];
      assert (a + [e])[..|a|] == a;
    } else {
      hide Selectable;
      SelectingKeepsOrder(a, e, b[..|b| - 1]);
      assert (a + [e] + b)[..|a| + |b|] == a + [e] + b[..|b| - 1];
    }
  }

  lemma {:induction false} DropProperty(es: seq<Event>, marked: set<string>)
    ensures forall e :: e in Drop(es, marked) <==> e in es && e.eventId !in marked
    decreases |es|
  {
    if es != [] {
      DropProperty(es[..|es| - 1], marked);
      assert es == es[..|es| - 1] + [es[|es| - 1]];
    }
  }

  lemma {:induction false} BoundaryProperty(es: seq<Event>)
    ensures forall e :: e in AfterBoundary(es) ==> e in es
    decreases |es|
  {
    if es != [] {
      BoundaryProperty(es[..|es| - 1]);
      assert es == es[..|es| - 1] + [es[|es| - 1]];
    }
  }

  // ------------------------------------------------------------------
  // The operation
  // ------------------------------------------------------------------

  /** Filter, check that there is enough, and cut the chunk off the front. */
  method ChooseChunk(visible: seq<Event>, fraction: real) returns (chunk: seq<Event>)
    ensures chunk == Chunk(visible, fraction)
  {
    var filtered := [];
    for i := 0 to |visible|
      invariant filtered == SelectableOf(visible[..i])
    {
      assert visible[..i + 1][..i] == visible[..i];
      if Selectable(visible[i]) {
        filtered := filtered + [visible[i]];
      }
    }
    assert visible[..|visible|] == visible;
    if |filtered| < 4 {
      return [];
    }
    var n := ChunkSize(|filtered|, fraction);
    return if n < |filtered| then filtered[..n] else filtered;
  }

  function Ids(es: seq<Event>): seq<string> {
    seq(|es|, i requires 0 <= i < |es| => es[i].eventId)
  }

  /**
   One call. `triggered` and `memoryOn` are the guards; `note` is the event that
   records the compaction. Summarising itself is the caller's memory store.
   */
  method MaybeAutoCompactClassic(log: EventLog, triggered: bool, memoryOn: bool, fraction: real,
                                 summariseFails: bool, note: Event, mtime: Option<int>)
    returns (chunk: seq<Event>)
    modifies log`eventCache, log`lastMtimeMs, log`lastSize, log`compressedIds
    modifies log.file`content, log.file`mtime, log.file`checkpoint
    ensures chunk == [] ==> log.file.content == old(log.file.content) && log.compressedIds == old(log.compressedIds)
    ensures chunk != [] ==>
              && triggered && memoryOn && !summariseFails
              && chunk == Chunk(Drop(AfterBoundary(
                                  Synced(old(log.file.content), old(log.file.mtime), old(log.State())).cache.value),
                                  old(log.compressedIds)), fraction)
              && log.compressedIds == old(log.compressedIds) + ToSet(Ids(chunk))
              && log.file.content == old(log.file.content) + LineOf(note) + "\n"
  {
    if !triggered || !memoryOn {
      return [];
    }
    var visible := log.ReadAllUncompressedAfterResetBoundary();
    chunk := ChooseChunk(visible, fraction);
    if chunk == [] || summariseFails {
      return [];
    }
    log.MarkEventsAsCompressed(Ids(chunk));
    var _ := log.Append(note, mtime);
  }

  // ------------------------------------------------------------------
  // Whole runs
  // ------------------------------------------------------------------

  /**
   `pending` is the chunk in hand and `stored` says whether any of its summary has
   reached the memory store; `summarised` are the ids of all chunks of which that
   can be said, each time it happened.
   */
  datatype Transcript = Transcript(
    es: seq<Event>,
    marked: set<string>,
    pending: Option<seq<Event>>,
    stored: bool,
    summarised: seq<string>)

  const FRESH := Transcript([], {}, None, false, [])

  datatype Op =
    | Add(e: Event)                 // any event, boundaries included
    | Begin(fraction: real)         // choose a chunk and start summarising
    | StoreSummary                  // the first fact of its summary is stored
    | Finish                        // mark the chunk, stored or not: a summariser may return nothing
    | Abandon                       // summarising or storing fails, or the program dies
    | HideUserMessage(id: string)   // a turn that never ran

  predicate IdsOf(es: seq<Event>, id: string) {
    exists i :: 0 <= i < |es| && es[i].eventId == id
  }

  predicate Allowed(w: Transcript, op: Op) {
    match op
    case Add(e) => !IdsOf(w.es, e.eventId)
    case Begin(f) => w.pending == None && 0.05 <= f <= 0.5
    case StoreSummary => w.pending.Some? && !w.stored
    case Finish => w.pending.Some?
    case Abandon => w.pending.Some?
    case HideUserMessage(id) =>
      w.pending == None && exists i :: 0 <= i < |w.es| && w.es[i].eventId == id && w.es[i].kind == "user_message"
  }

  /** What compaction could choose from now. */
  function Candidates(w: Transcript): seq<Event> {
    SelectableOf(Drop(AfterBoundary(w.es), w.marked))
  }

  function Step(w: Transcript, op: Op): Transcript
    requires Allowed(w, op)
  {
    match op
    case Add(e) => w.(es := w.es + [e])
    case Begin(f) =>
      var chunk := Take(Candidates(w), f);
      if chunk == [] then w else w.(pending := Some(chunk), stored := false)
    case StoreSummary => w.(stored := true, summarised := w.summarised + Ids(w.pending.value))
    case Finish => w.(pending := None, stored := false, marked := w.marked + ToSet(Ids(w.pending.value)))
    case Abandon => w.(pending := None, stored := false)
    case HideUserMessage(id) => w.(marked := w.marked + {id})
  }

  ghost predicate Runs(w: Transcript, ops: seq<Op>, w': Transcript)
    decreases |ops|
  {
    if ops == [] then w' == w else Allowed(w, ops[0]) && Runs(Step(w, ops[0]), ops[1..], w')
  }

  ghost predicate DistinctIds(es: seq<Event>) {
    forall i, j :: 0 <= i < j < |es| ==> es[i].eventId != es[j].eventId
  }

  ghost predicate NoRepeats(ids: seq<string>) {
    forall i, j :: 0 <= i < j < |ids| ==> ids[i] != ids[j]
  }

  /** What marking keeps, however runs fail. */
  ghost predicate MarksOk(w: Transcript) {
    && DistinctIds(w.es)
    && (forall i :: 0 <= i < |w.es| && !Selectable(w.es[i]) ==> w.es[i].eventId !in w.marked)
    && (forall id :: id in w.marked ==> IdsOf(w.es, id))
    && (w.pending.Some? ==> PendingOk(w, w.pending.value))
    && (w.pending == None ==> !w.stored)
  }

  /** A chunk holds distinct events of the log, none of them a note and none marked. */
  ghost predicate PendingOk(w: Transcript, chunk: seq<Event>) {
    && chunk != [] && DistinctIds(chunk)
    && (forall i :: 0 <= i < |chunk| ==> chunk[i] in w.es && Selectable(chunk[i]) && chunk[i].eventId !in w.marked)
    && (InFront(w, chunk) || Behind(w, chunk))
  }

  /** The chunk is still what compaction would start with. */
  ghost predicate InFront(w: Transcript, chunk: seq<Event>) {
    |Candidates(w)| >= 4 && chunk <= Candidates(w)
  }

  /** A boundary has been logged since: the chunk is out of sight for good. */
  ghost predicate Behind(w: Transcript, chunk: seq<Event>) {
    forall i :: 0 <= i < |chunk| ==> OutOfSight(w.es, chunk[i].eventId)
  }

  ghost predicate OutOfSight(es: seq<Event>, id: string) {
    forall e :: e in AfterBoundary(es) ==> e.eventId != id
  }

  lemma {:induction false} SubsequencesDistinct(es: seq<Event>, marked: set<string>)
    requires DistinctIds(es)
    ensures DistinctIds(AfterBoundary(es)) && DistinctIds(Drop(es, marked)) && DistinctIds(SelectableOf(es))
    decreases |es|
  {
    if es != [] {
      var before, last := es[..|es| - 1], es[|es| - 1];
      SubsequencesDistinct(before, marked);
      BoundaryProperty(before);
      DropProperty(before, marked);
      SelectableProperty(before);
      AppendDistinct(AfterBoundary(before), before, last);
      AppendDistinct(Drop(before, marked), before, last);
      AppendDistinct(SelectableOf(before), before, last);
    }
  }

  lemma {:induction false} AppendDistinct(part: seq<Event>, before: seq<Event>, last: Event)
    requires DistinctIds(part) && forall e :: e in part ==> e in before
    requires forall i :: 0 <= i < |before| ==> before[i].eventId != last.eventId
    ensures DistinctIds(part + [last])
  {
    forall i | 0 <= i < |part| ensures part[i].eventId != last.eventId {
      assert part[i] in before;
    }
  }

  lemma {:induction false} CandidatesProperty(w: Transcript)
    requires DistinctIds(w.es)
    ensures DistinctIds(Candidates(w))
    ensures forall e :: e in Candidates(w) <==>
                e in AfterBoundary(w.es) && Selectable(e) && e.eventId !in w.marked
    ensures forall e :: e in Candidates(w) ==> e in w.es
  {
    var visible := AfterBoundary(w.es);
    var open := Drop(visible, w.marked);
    SubsequencesDistinct(w.es, w.marked);
    SubsequencesDistinct(visible, w.marked);
    SubsequencesDistinct(open, w.marked);
    BoundaryProperty(w.es);
    DropProperty(visible, w.marked);
    SelectableProperty(open);
  }

  lemma {:induction false} BeginKeepsMarks(w: Transcript, fraction: real)
    requires MarksOk(w) && Allowed(w, Begin(fraction))
    ensures MarksOk(Step(w, Begin(fraction)))
  {
    var all := Candidates(w);
    var chunk := Take(all, fraction);
    ChunkBounds(all, fraction);
    CandidatesProperty(w);
    if chunk != [] {
      var w' := Step(w, Begin(fraction));
      assert Candidates(w') == all;
      forall i | 0 <= i < |chunk|
        ensures chunk[i] in w.es && Selectable(chunk[i]) && chunk[i].eventId !in w.marked
      {
        assert chunk[i] == all[i];
      }
      forall i, j | 0 <= i < j < |chunk| ensures chunk[i].eventId != chunk[j].eventId {
        assert chunk[i] == all[i] && chunk[j] == all[j];
      }
    }
  }

  /** A new event leaves the chunk in front, unless it is a boundary: then the chunk is behind it. */
  lemma {:induction false} AddKeepsPending(w: Transcript, e: Event, chunk: seq<Event>)
    requires MarksOk(w) && Allowed(w, Add(e)) && PendingOk(w, chunk)
    ensures PendingOk(Step(w, Add(e)), chunk)
  {
    var w' := Step(w, Add(e));
    assert w'.es[..|w'.es| - 1] == w.es;
    assert e.eventId !in w.marked;
    if IsResetBoundary(e) {
      assert AfterBoundary(w'.es) == [];
    } else {
      var visible := AfterBoundary(w.es);
      assert AfterBoundary(w'.es) == visible + [e];
      assert (visible + [e])[..|visible|] == visible;
      var open := Drop(visible, w.marked);
      assert Drop(visible + [e], w.marked) == open + [e];
      assert (open + [e])[..|open|] == open;
      assert Candidates(w) <= Candidates(w');
      if Behind(w, chunk) {
        forall i | 0 <= i < |chunk| ensures OutOfSight(w'.es, chunk[i].eventId) {
          assert chunk[i] in w.es && OutOfSight(w.es, chunk[i].eventId);
        }
      }
    }
  }

  lemma {:induction false} FinishKeepsMarks(w: Transcript)
    requires MarksOk(w) && w.pending.Some?
    ensures MarksOk(Step(w, Finish))
  {
    var w' := Step(w, Finish);
    var chunk := w.pending.value;
    var ids := Ids(chunk);
    forall i | 0 <= i < |w.es| && !Selectable(w.es[i]) ensures w.es[i].eventId !in w'.marked {
      forall j | 0 <= j < |ids| ensures ids[j] != w.es[i].eventId {
        var k :| 0 <= k < |w.es| && w.es[k] == chunk[j];
        assert k != i;
      }
    }
    forall id | id in w'.marked ensures IdsOf(w.es, id) {
      if id !in w.marked {
        var j :| 0 <= j < |ids| && ids[j] == id;
        var k :| 0 <= k < |w.es| && w.es[k] == chunk[j];
      }
    }
  }

  lemma {:induction false} StepKeepsMarks(w: Transcript, op: Op)
    requires MarksOk(w) && Allowed(w, op)
    ensures MarksOk(Step(w, op))
  {
    hide Candidates, OutOfSight;
    match op
    case Add(e) =>
      var w' := Step(w, op);
      forall id | id in w.marked ensures IdsOf(w'.es, id) {
        var i :| 0 <= i < |w.es| && w.es[i].eventId == id;
        assert w'.es[i].eventId == id;
      }
      if w.pending.Some? {
        AddKeepsPending(w, e, w.pending.value);
      }
    case Begin(f) => BeginKeepsMarks(w, f);
    case StoreSummary => SameSight(w, Step(w, StoreSummary), w.pending.value);
    case Finish => FinishKeepsMarks(w);
    case Abandon =>
    case HideUserMessage(id) =>
      var k :| 0 <= k < |w.es| && w.es[k].eventId == id && w.es[k].kind == "user_message";
      forall i | 0 <= i < |w.es| && !Selectable(w.es[i]) ensures w.es[i].eventId != id {
        assert i != k;
      }
  }

  lemma {:induction false} SameSight(w: Transcript, w': Transcript, chunk: seq<Event>)
    requires w'.es == w.es && w'.marked == w.marked && PendingOk(w, chunk)
    ensures PendingOk(w', chunk)
  {
    assert Candidates(w') == Candidates(w);
  }

  lemma {:induction false} RunKeepsMarks(w: Transcript, ops: seq<Op>, w': Transcript)
    requires MarksOk(w) && Runs(w, ops, w')
    ensures MarksOk(w')
    decreases |ops|
  {
    if ops != [] {
      StepKeepsMarks(w, ops[0]);
      RunKeepsMarks(Step(w, ops[0]), ops[1..], w');
    }
  }

  /**
   Over any run of appends, boundaries and compactions, failing ones included, no
   boundary note is ever marked, so the classic prompt, which drops the marked
   events and then cuts at the last boundary, shows what compaction, which cuts
   first, chooses from.
   */
  lemma {:induction false} BoundariesAreNeverMarked(ops: seq<Op>, w: Transcript)
    requires Runs(FRESH, ops, w)
    ensures forall i :: 0 <= i < |w.es| && IsResetBoundary(w.es[i]) ==> w.es[i].eventId !in w.marked
    ensures AfterBoundary(Drop(w.es, w.marked)) == Drop(AfterBoundary(w.es), w.marked)
  {
    RunKeepsMarks(FRESH, ops, w);
    DropAndCutCommute(w.es, w.marked);
  }

  // ------------------------------------------------------------------
  // Summarising once
  // ------------------------------------------------------------------

  /** A chunk of which something is stored, not marked yet, and still in sight. */
  ghost predicate WindowOpen(w: Transcript) {
    && w.pending.Some? && w.stored
    && exists i :: 0 <= i < |w.pending.value| && !OutOfSight(w.es, w.pending.value[i].eventId)
  }

  /** Runs in which no compaction is abandoned in that window. */
  ghost predicate SafeRuns(w: Transcript, ops: seq<Op>, w': Transcript)
    decreases |ops|
  {
    if ops == [] then w' == w
    else Allowed(w, ops[0]) && !(ops[0] == Abandon && WindowOpen(w)) && SafeRuns(Step(w, ops[0]), ops[1..], w')
  }

  /** What is summarised will not be chosen again: it is marked, in hand, or out of sight. */
  ghost predicate Settled(w: Transcript, id: string) {
    || id in w.marked
    || (w.pending.Some? && w.stored && id in Ids(w.pending.value))
    || OutOfSight(w.es, id)
  }

  ghost predicate SummariesOk(w: Transcript) {
    && NoRepeats(w.summarised)
    && (forall i :: 0 <= i < |w.summarised| ==> IdsOf(w.es, w.summarised[i]) && Settled(w, w.summarised[i]))
    && (w.pending.Some? && !w.stored ==> forall id :: id in Ids(w.pending.value) ==> id !in w.summarised)
  }

  lemma {:induction false} OutOfSightStays(es: seq<Event>, e: Event, id: string)
    requires IdsOf(es, id) && !IdsOf(es, e.eventId) && OutOfSight(es, id)
    ensures OutOfSight(es + [e], id)
  {
    assert (es + [e])[..|es|] == es;
    assert e.eventId != id;
  }

  lemma {:induction false} AddKeepsSummaries(w: Transcript, e: Event)
    requires MarksOk(w) && SummariesOk(w) && Allowed(w, Add(e))
    ensures SummariesOk(Step(w, Add(e)))
  {
    var w' := Step(w, Add(e));
    forall i | 0 <= i < |w.summarised|
      ensures IdsOf(w'.es, w.summarised[i]) && Settled(w', w.summarised[i])
    {
      var id := w.summarised[i];
      var k :| 0 <= k < |w.es| && w.es[k].eventId == id;
      assert w'.es[k].eventId == id;
      assert Settled(w, id);
      if OutOfSight(w.es, id) {
        OutOfSightStays(w.es, e, id);
      }
    }
  }

  lemma {:induction false} BeginKeepsSummaries(w: Transcript, f: real)
    requires MarksOk(w) && SummariesOk(w) && Allowed(w, Begin(f))
    ensures SummariesOk(Step(w, Begin(f)))
  {
    var all := Candidates(w);
    var chunk := Take(all, f);
    var w' := Step(w, Begin(f));
    ChunkBounds(all, f);
    CandidatesProperty(w);
    forall i | 0 <= i < |w.summarised| ensures Settled(w', w.summarised[i]) {
      assert Settled(w, w.summarised[i]);
    }
    forall j | 0 <= j < |chunk| ensures chunk[j].eventId !in w.summarised {
      assert chunk[j] == all[j] && all[j] in all;
      forall i | 0 <= i < |w.summarised| ensures w.summarised[i] != chunk[j].eventId {
        assert Settled(w, w.summarised[i]);
      }
    }
  }

  lemma {:induction false} StoreKeepsSummaries(w: Transcript)
    requires MarksOk(w) && SummariesOk(w) && Allowed(w, StoreSummary)
    ensures SummariesOk(Step(w, StoreSummary))
  {
    hide Candidates, OutOfSight, InFront, Behind;
    var w' := Step(w, StoreSummary);
    var chunk := w.pending.value;
    var ids := Ids(chunk);
    forall i | 0 <= i < |w'.summarised|
      ensures IdsOf(w'.es, w'.summarised[i]) && Settled(w', w'.summarised[i])
    {
      if i < |w.summarised| {
        assert Settled(w, w.summarised[i]);
      } else {
        assert w'.summarised[i] == ids[i - |w.summarised|];
        var k :| 0 <= k < |w.es| && w.es[k] == chunk[i - |w.summarised|];
        assert w.es[k].eventId == w'.summarised[i];
      }
    }
    forall i, j | 0 <= i < j < |w'.summarised| ensures w'.summarised[i] != w'.summarised[j] {
      if j >= |w.summarised| {
        assert w'.summarised[j] == ids[j - |w.summarised|] && ids[j - |w.summarised|] in ids;
        if i >= |w.summarised| {
          assert w'.summarised[i] == chunk[i - |w.summarised|].eventId;
        } else {
          assert w'.summarised[i] in w.summarised;
        }
      }
    }
  }

  /** Marking settles the chunk; abandoning it outside the window leaves it out of sight. */
  lemma {:induction false} ClosingKeepsSummaries(w: Transcript, op: Op)
    requires MarksOk(w) && SummariesOk(w) && w.pending.Some?
    requires op == Finish || (op == Abandon && !WindowOpen(w))
    ensures SummariesOk(Step(w, op))
  {
    var w' := Step(w, op);
    var ids := Ids(w.pending.value);
    forall i | 0 <= i < |w.summarised| ensures Settled(w', w.summarised[i]) {
      assert Settled(w, w.summarised[i]);
      if w.stored && w.summarised[i] in ids {
        var j :| 0 <= j < |ids| && ids[j] == w.summarised[i];
        assert w.pending.value[j].eventId == w.summarised[i];
      }
    }
  }

  lemma {:induction false} StepKeepsSummaries(w: Transcript, op: Op)
    requires MarksOk(w) && SummariesOk(w) && Allowed(w, op) && !(op == Abandon && WindowOpen(w))
    ensures SummariesOk(Step(w, op))
  {
    match op
    case Add(e) => AddKeepsSummaries(w, e);
    case Begin(f) => BeginKeepsSummaries(w, f);
    case StoreSummary => StoreKeepsSummaries(w);
    case Finish => ClosingKeepsSummaries(w, op);
    case Abandon => ClosingKeepsSummaries(w, op);
    case HideUserMessage(id) =>
      forall i | 0 <= i < |w.summarised| ensures Settled(Step(w, op), w.summarised[i]) {
        assert Settled(w, w.summarised[i]);
      }
  }

  lemma {:induction false} SafeRunKeeps(w: Transcript, ops: seq<Op>, w': Transcript)
    requires MarksOk(w) && SummariesOk(w) && SafeRuns(w, ops, w')
    ensures MarksOk(w') && SummariesOk(w')
    decreases |ops|
  {
    if ops != [] {
      StepKeepsMarks(w, ops[0]);
      StepKeepsSummaries(w, ops[0]);
      SafeRunKeeps(Step(w, ops[0]), ops[1..], w');
    }
  }

  /**
   As long as no compaction is abandoned in the window, no event is summarised
   twice, and a chunk not yet stored is disjoint from all that was summarised.
   */
  lemma {:induction false} NothingIsSummarisedTwice(ops: seq<Op>, w: Transcript)
    requires SafeRuns(FRESH, ops, w)
    ensures NoRepeats(w.summarised)
    ensures forall i :: 0 <= i < |w.summarised| ==> Settled(w, w.summarised[i])
    ensures w.pending.Some? && !w.stored ==>
              forall id :: id in Ids(w.pending.value) ==> id !in w.summarised
  {
    SafeRunKeeps(FRESH, ops, w);
  }

  /** Abandoned in the window, the chunk is still in front, so the next one begins with the same event. */
  lemma {:induction false} ChosenAgain(w: Transcript)
    requires MarksOk(w) && WindowOpen(w)
    ensures var again := Take(Candidates(Step(w, Abandon)), 0.5);
            again != [] && w.pending.value != [] && again[0] == w.pending.value[0]
  {
    var chunk := w.pending.value;
    var w0 := Step(w, Abandon);
    assert InFront(w, chunk) && Candidates(w0) == Candidates(w);
    hide Take;
    ChunkBounds(Candidates(w0), 0.5);
  }

  lemma {:induction false} BeginAndStore(w: Transcript)
    requires w.pending == None && Take(Candidates(w), 0.5) != []
    ensures SafeRuns(w, [Begin(0.5), StoreSummary],
                     w.(pending := Some(Take(Candidates(w), 0.5)), stored := true,
                        summarised := w.summarised + Ids(Take(Candidates(w), 0.5))))
  {
    hide Take, Candidates, WindowOpen, Ids;
    var w1 := Step(w, Begin(0.5));
    var w2 := Step(w1, StoreSummary);
    assert SafeRuns(w2, [], w2);
    assert [StoreSummary][1..] == [] && [Begin(0.5), StoreSummary][1..] == [StoreSummary];
    assert SafeRuns(w1, [StoreSummary], w2);
  }

  /** So its first event is summarised a second time. */
  lemma {:induction false} WindowRepeats(w: Transcript)
    requires MarksOk(w) && SummariesOk(w) && WindowOpen(w)
    requires forall id :: id in Ids(w.pending.value) ==> id in w.summarised
    ensures exists more, w' :: SafeRuns(Step(w, Abandon), more, w') && !NoRepeats(w'.summarised)
  {
    var w0 := Step(w, Abandon);
    ChosenAgain(w);
    hide Take, Candidates, MarksOk, SummariesOk, SafeRuns;
    BeginAndStore(w0);
    var chunk, again := w.pending.value, Take(Candidates(w0), 0.5);
    var ids := w.summarised + Ids(again);
    assert Ids(chunk)[0] in Ids(chunk);
    var i :| 0 <= i < |w.summarised| && w.summarised[i] == chunk[0].eventId;
    assert ids[i] == ids[|w.summarised|];
    assert !NoRepeats(ids);
  }

  /**
   The window is exact. After any run that kept clear of it, abandoning the
   compaction under way can lead to an event being summarised twice if and only
   if part of its summary is stored and its chunk is still in sight.
   */
  lemma {:induction false} TwiceIffAbandonedInTheWindow(ops: seq<Op>, w: Transcript)
    requires SafeRuns(FRESH, ops, w) && w.pending.Some?
    ensures (exists more, w' :: SafeRuns(Step(w, Abandon), more, w') && !NoRepeats(w'.summarised)) <==> WindowOpen(w)
  {
    SafeRunKeeps(FRESH, ops, w);
    StoredIsSummarised(FRESH, ops, w);
    if WindowOpen(w) {
      WindowRepeats(w);
    } else {
      forall more, w' | SafeRuns(Step(w, Abandon), more, w')
        ensures NoRepeats(w'.summarised)
      {
        StepKeepsMarks(w, Abandon);
        StepKeepsSummaries(w, Abandon);
        SafeRunKeeps(Step(w, Abandon), more, w');
      }
    }
  }

  ghost predicate StoredOk(w: Transcript) {
    w.pending.Some? && w.stored ==> forall id :: id in Ids(w.pending.value) ==> id in w.summarised
  }

  lemma {:induction false} StoredIsSummarised(w: Transcript, ops: seq<Op>, w': Transcript)
    requires StoredOk(w) && SafeRuns(w, ops, w')
    ensures StoredOk(w')
    decreases |ops|
  {
    if ops != [] {
      StoredIsSummarised(Step(w, ops[0]), ops[1..], w');
    }
  }

  // ------------------------------------------------------------------
  // Marking without a summary
  // ------------------------------------------------------------------

  lemma {:induction false} MarkedIsNeverSummarisedLater(w: Transcript, ops: seq<Op>, w': Transcript, id: string)
    requires MarksOk(w) && Runs(w, ops, w') && id in w.marked && id !in w.summarised
    ensures id in w'.marked && id !in w'.summarised
    decreases |ops|
  {
    if ops != [] {
      StepKeepsMarks(w, ops[0]);
      MarkedIsNeverSummarisedLater(Step(w, ops[0]), ops[1..], w', id);
    }
  }

  /**
   A chunk that is marked although nothing of it was stored, as when there is no
   summariser or it was aborted, is gone from the prompt and never summarised.
   */
  lemma {:induction false} FinishingUnstoredLosesTheChunk(
      ops: seq<Op>, w: Transcript, more: seq<Op>, w': Transcript, e: Event)
    requires SafeRuns(FRESH, ops, w) && w.pending.Some? && !w.stored && e in w.pending.value
    requires Runs(Step(w, Finish), more, w')
    ensures e !in Candidates(w') && e.eventId !in w'.summarised
  {
    SafeRunKeeps(FRESH, ops, w);
    StepKeepsMarks(w, Finish);
    var j :| 0 <= j < |w.pending.value| && w.pending.value[j] == e;
    assert Ids(w.pending.value)[j] in Ids(w.pending.value);
    MarkedIsNeverSummarisedLater(Step(w, Finish), more, w', e.eventId);
    RunKeepsMarks(Step(w, Finish), more, w');
    CandidatesProperty(w');
  }
}

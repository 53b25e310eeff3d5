/**
 The append-only event log with its cache, reset boundaries and compression marks.

 `EventLog` is the object a session has; `LogFile` is what is on disk. A stat
 gives the modification time and the size in bytes.
 */
module EventLog {
  import opened Options
  import opened JsonText
  import opened LogText

  // ------------------------------------------------------------------
  // Reset boundaries
  // ------------------------------------------------------------------

  const RESET_BOUNDARY_TYPE := "reset_boundary"

  function Field(m: Members, key: string): Option<Json> {
    match m
    case NoMembers => None
    case Member(k, v, rest) => if k == key then Some(v) else Field(rest, key)
  }

  predicate IsResetBoundary(e: Event) {
    e.kind == "system_note" && Field(e.payload, "type") == Some(Str(RESET_BOUNDARY_TYPE))
  }

  /** The events after the last boundary; all of them if there is none. */
  function AfterBoundary(es: seq<Event>): seq<Event>
    decreases |es|
  {
    if es == [] then []
    else if IsResetBoundary(es[|es| - 1]) then []
    else AfterBoundary(es[..|es| - 1]) + [es[|es| - 1]]
  }

  method FindLastResetBoundaryIndex(es: seq<Event>) returns (at: int)
    ensures -1 <= at < |es|
    ensures at >= 0 ==> IsResetBoundary(es[at])
    ensures forall j :: at < j < |es| ==> !IsResetBoundary(es[j])
  {
    at := |es| - 1;
    while at >= 0
      invariant -1 <= at < |es|
      invariant forall j :: at < j < |es| ==> !IsResetBoundary(es[j])
    {
      if IsResetBoundary(es[at]) {
        return;
      }
      at := at - 1;
    }
  }

  method EventsAfterResetBoundary(es: seq<Event>) returns (visible: seq<Event>)
    ensures visible == AfterBoundary(es)
  {
    var at := FindLastResetBoundaryIndex(es);
    CutAt(es, at);
    return if at < 0 then es else es[at + 1..];
  }

  lemma {:induction false} SuffixGrows(es: seq<Event>, i: nat)
    requires i < |es|
    ensures es[i..] == es[..|es| - 1][i..] + [es[|es| - 1]]
  {
  }

  /** The events after the last boundary are a suffix that holds no boundary and starts right behind one. */
  lemma {:induction false} CutAt(es: seq<Event>, at: int)
    requires -1 <= at < |es| && (at >= 0 ==> IsResetBoundary(es[at]))
    requires forall j :: at < j < |es| ==> !IsResetBoundary(es[j])
    ensures AfterBoundary(es) == es[at + 1..]
    decreases |es|
  {
    hide IsResetBoundary;
    if at < |es| - 1 {
      var before, last := es[..|es| - 1], es[|es| - 1];
      CutAt(before, at);
      SuffixGrows(es, at + 1);
      assert AfterBoundary(es) == AfterBoundary(before) + [last];
    } else {
      assert es[at + 1..] == [];
    }
  }

  /** Leaving out the events whose ids are marked. */
  function Drop(es: seq<Event>, marked: set<string>): seq<Event>
    decreases |es|
  {
    if es == [] then []
    else Drop(es[..|es| - 1], marked) + if es[|es| - 1].eventId in marked then [] else [es[|es| - 1]]
  }

  /**
   Dropping the marked events and cutting at the last boundary may be done in
   either order, provided no boundary is marked.
   */
  lemma {:induction false} DropAndCutCommute(es: seq<Event>, marked: set<string>)
    requires forall i :: 0 <= i < |es| && IsResetBoundary(es[i]) ==> es[i].eventId !in marked
    ensures AfterBoundary(Drop(es, marked)) == Drop(AfterBoundary(es), marked)
    decreases |es|
  {
    if es != [] {
      var before, last := es[..|es| - 1], es[|es| - 1];
      DropAndCutCommute(before, marked);
      if last.eventId in marked {
        assert Drop(es, marked) == Drop(before, marked);
      }
      if !IsResetBoundary(last) {
        assert (AfterBoundary(before) + [last])[..|AfterBoundary(before)|] == AfterBoundary(before);
      }
    }
  }

  // ------------------------------------------------------------------
  // The cache
  // ------------------------------------------------------------------

  datatype LogState = LogState(cache: Option<seq<Event>>, mtime: int, size: nat)

  const COLD := LogState(None, 0, 0)

  /**
   Keep the cache if time and size are those of the last look, else read the file.
   `mtime` is what a stat says; without an answer the log counts as empty.
   */
  function Synced(content: string, mtime: Option<int>, l: LogState): LogState {
    if mtime == None then LogState(Some([]), 0, 0)
    else if l.cache.Some? && l.mtime == mtime.value && l.size == Bytes(content) then l
    else LogState(Some(ReadBack(content)), mtime.value, Bytes(content))
  }

  /**
   A cold cache is read before the line is written, so the event is counted once.
   If the file cannot be stat-ed after the write, the last look is not updated.
   */
  function Appended(content: string, mtime: Option<int>, l: LogState, e: Event, mtime': Option<int>): LogState {
    var warm := if l.cache == None then Synced(content, mtime, l) else l;
    var cache := Some(warm.cache.value + [e]);
    if mtime' == None then warm.(cache := cache)
    else LogState(cache, mtime'.value, Bytes(content + LineOf(e) + "\n"))
  }

  class LogFile {
    var content: string
    var mtime: Option<int>                // None when the file cannot be stat-ed
    var checkpoint: Option<seq<string>>   // compression_checkpoint.json

    constructor (content: string, mtime: Option<int>)
      ensures this.content == content && this.mtime == mtime && checkpoint == None
    {
      this.content, this.mtime, checkpoint := content, mtime, None;
    }
  }

  function ToSet(ids: seq<string>): set<string> {
    set id | id in ids
  }

  class EventLog {
    const file: LogFile
    var eventCache: Option<seq<Event>>
    var lastMtimeMs: int
    var lastSize: nat
    var compressedIds: set<string>

    function State(): LogState
      reads this
    {
      LogState(eventCache, lastMtimeMs, lastSize)
    }

    constructor (file: LogFile)
      ensures this.file == file && State() == COLD
      ensures compressedIds == if file.checkpoint.Some? then ToSet(file.checkpoint.value) else {}
    {
      this.file := file;
      eventCache, lastMtimeMs, lastSize := None, 0, 0;
      compressedIds := if file.checkpoint.Some? then ToSet(file.checkpoint.value) else {};
    }

    method SyncCache()
      modifies this`eventCache, this`lastMtimeMs, this`lastSize
      ensures State() == Synced(file.content, file.mtime, old(State()))
      ensures eventCache.Some?
    {
      if file.mtime == None {
        eventCache, lastMtimeMs, lastSize := Some([]), 0, 0;
        return;
      }
      if eventCache.Some? && file.mtime.value == lastMtimeMs && Bytes(file.content) == lastSize {
        return;
      }
      eventCache := Some(ReadBack(file.content));
      lastMtimeMs, lastSize := file.mtime.value, Bytes(file.content);
    }

    /** `threw` says that the event is written but the stat after it failed. */
    method Append(e: Event, mtime: Option<int>) returns (threw: bool)
      modifies this`eventCache, this`lastMtimeMs, this`lastSize, file`content, file`mtime
      ensures file.content == old(file.content) + LineOf(e) + "\n" && file.mtime == mtime
      ensures State() == Appended(old(file.content), old(file.mtime), old(State()), e, mtime)
      ensures threw <==> mtime == None
    {
      if eventCache == None {
        SyncCache();
      }
      file.content := file.content + LineOf(e) + "\n";
      file.mtime := mtime;
      eventCache := Some(eventCache.value + [e]);
      threw := mtime == None;
      if !threw {
        lastMtimeMs, lastSize := mtime.value, Bytes(file.content);
      }
    }

    method ReadAll() returns (es: seq<Event>)
      modifies this`eventCache, this`lastMtimeMs, this`lastSize
      ensures State() == Synced(file.content, file.mtime, old(State()))
      ensures eventCache == Some(es)
    {
      SyncCache();
      es := eventCache.value;
    }

    method GetLastEvent() returns (e: Option<Event>)
      modifies this`eventCache, this`lastMtimeMs, this`lastSize
      ensures State() == Synced(file.content, file.mtime, old(State())) && eventCache.Some?
      ensures e == if eventCache.value == [] then None else Some(eventCache.value[|eventCache.value| - 1])
    {
      SyncCache();
      var es := eventCache.value;
      return if es == [] then None else Some(es[|es| - 1]);
    }

    /** What the classic prompt is built from. */
    method ReadAllUncompressed() returns (es: seq<Event>)
      modifies this`eventCache, this`lastMtimeMs, this`lastSize
      ensures State() == Synced(file.content, file.mtime, old(State())) && eventCache.Some?
      ensures es == Drop(eventCache.value, compressedIds)
    {
      var all := ReadAll();
      es := Filtered(all);
    }

    /** What compaction chooses from. */
    method ReadAllUncompressedAfterResetBoundary() returns (es: seq<Event>)
      modifies this`eventCache, this`lastMtimeMs, this`lastSize
      ensures State() == Synced(file.content, file.mtime, old(State())) && eventCache.Some?
      ensures es == Drop(AfterBoundary(eventCache.value), compressedIds)
    {
      var all := ReadAll();
      var visible := EventsAfterResetBoundary(all);
      es := Filtered(visible);
    }

    method Filtered(all: seq<Event>) returns (es: seq<Event>)
      ensures es == Drop(all, compressedIds)
    {
      es := [];
      for i := 0 to |all|
        invariant es == Drop(all[..i], compressedIds)
      {
        assert all[..i + 1][..i] == all[..i];
        if all[i].eventId !in compressedIds {
          es := es + [all[i]];
        }
      }
      assert all[..|all|] == all;
    }

    method MarkEventsAsCompressed(ids: seq<string>)
      modifies this`compressedIds, file`checkpoint
      ensures compressedIds == old(compressedIds) + ToSet(ids)
      ensures file.checkpoint.Some? && ToSet(file.checkpoint.value) == compressedIds
    {
      for i := 0 to |ids|
        invariant compressedIds == old(compressedIds) + ToSet(ids[..i])
      {
        compressedIds := compressedIds + {ids[i]};
        assert ids[..i + 1] == ids[..i] + [ids[i]];
        ToSetAppend(ids[..i], ids[i]);
      }
      assert ids[..|ids|] == ids;
      var listed := Listed(compressedIds);
      file.checkpoint := Some(listed);
    }
  }

  lemma {:induction false} ToSetAppend(ids: seq<string>, id: string)
    ensures ToSet(ids + [id]) == ToSet(ids) + {id}
  {
  }

  /** The members of a set in some order. */
  method Listed(s: set<string>) returns (ids: seq<string>)
    ensures ToSet(ids) == s
  {
    ids := [];
    var rest := s;
    while rest != {}
      invariant rest <= s && ToSet(ids) == s - rest
      decreases rest
    {
      var id :| id in rest;
      ToSetAppend(ids, id);
      ids := ids + [id];
      rest := rest - {id};
    }
  }

  // ------------------------------------------------------------------
  // Any number of log objects over one file
  // ------------------------------------------------------------------

  /** A warm cache is the file as it was at some earlier moment, and its size says which. */
  ghost predicate Tracks(es: seq<Event>, l: LogState) {
    l.cache.Some? ==>
      && |l.cache.value| <= |es|
      && l.cache.value == es[..|l.cache.value|]
      && l.size == Bytes(FileText(l.cache.value))
  }

  /**
   The shortcut never serves a stale list: a cache that was right once answers
   with exactly the events now in the file.
   */
  lemma {:induction false} SyncIsExact(es: seq<Event>, mtime: int, l: LogState)
    requires EventsOk(es) && Tracks(es, l)
    ensures Synced(FileText(es), Some(mtime), l).cache == Some(es)
    ensures Tracks(es, Synced(FileText(es), Some(mtime), l))
  {
    ReadBackUndoesWrite(es);
    if l.cache.Some? {
      SizeTellsHowMany(es, |l.cache.value|, |es|);
    }
    assert es[..|es|] == es;
  }

  /**
   An append leaves the cache exact if and only if the cache was cold or exact.
   A second writer's stale cache is stamped with the new size all the same.
   */
  lemma {:induction false} AppendIsExactIff(es: seq<Event>, mtime: int, l: LogState, e: Event, mtime': int)
    requires EventsOk(es) && EventOk(e) && Tracks(es, l)
    ensures var l' := Appended(FileText(es), Some(mtime), l, e, Some(mtime'));
            && (l'.cache == Some(es + [e]) <==> l.cache == None || l.cache == Some(es))
            && (l'.cache == Some(es + [e]) ==> Tracks(es + [e], l'))
  {
    SyncIsExact(es, mtime, l);
    assert (es + [e])[..|es|] == es && (es + [e])[..|es + [e]|] == es + [e];
    if l.cache.Some? && l.cache.value + [e] == es + [e] {
      assert l.cache.value == (l.cache.value + [e])[..|l.cache.value|] == es;
    }
  }

  /** After an append through a stale cache, reading goes on missing the other writer's events. */
  lemma {:induction false} StaleAppendIsServed(es: seq<Event>, mtime: int, l: LogState, e: Event, mtime': int)
    requires EventsOk(es) && EventOk(e) && Tracks(es, l) && l.cache.Some? && l.cache.value != es
    ensures var l' := Appended(FileText(es), Some(mtime), l, e, Some(mtime'));
            && Synced(FileText(es + [e]), Some(mtime'), l').cache == l'.cache
            && |l'.cache.value| <= |es|
  {
    assert (es + [e])[..|es|] == es;
    assert l.cache.value != es[..|es|];
  }

  /**
   A read while the file cannot be stat-ed gives no events. The next read that can
   stat it is exact again, but an append in between is exact only if the log was empty.
   */
  lemma {:induction false} FailedStatIsForgotten(es: seq<Event>, mtime: int, l: LogState, e: Event, mtime': int)
    requires EventsOk(es) && EventOk(e)
    ensures var blind := Synced(FileText(es), None, l);
            && blind.cache == Some([])
            && Synced(FileText(es), Some(mtime), blind).cache == Some(es)
            && (Appended(FileText(es), Some(mtime), blind, e, Some(mtime')).cache == Some(es + [e]) <==> es == [])
  {
    var blind := Synced(FileText(es), None, l);
    assert es[..0] == [];
    SyncIsExact(es, mtime, blind);
    AppendIsExactIff(es, mtime, blind, e, mtime');
  }

  datatype Op =
    | AppendOp(e: Event, mtime: int)  // by the current writer
    | ReadOp(log: nat)                // by any log object
    | ReopenOp                        // a new object takes over writing

  datatype World = World(es: seq<Event>, mtime: int, logs: seq<LogState>, writer: nat)

  predicate Allowed(w: World, op: Op) {
    match op
    case AppendOp(_, _) => w.writer < |w.logs|
    case ReadOp(i) => i < |w.logs|
    case ReopenOp => true
  }

  function Step(w: World, op: Op): World
    requires Allowed(w, op)
  {
    match op
    case AppendOp(e, t) =>
      World(w.es + [e], t,
            w.logs[w.writer := Appended(FileText(w.es), Some(w.mtime), w.logs[w.writer], e, Some(t))], w.writer)
    case ReadOp(i) => w.(logs := w.logs[i := Synced(FileText(w.es), Some(w.mtime), w.logs[i])])
    case ReopenOp => w.(logs := w.logs + [COLD], writer := |w.logs|)
  }

  ghost predicate Runs(w: World, ops: seq<Op>, w': World)
    decreases |ops|
  {
    if ops == [] then w' == w else Allowed(w, ops[0]) && Runs(Step(w, ops[0]), ops[1..], w')
  }

  function AppendedBy(ops: seq<Op>): seq<Event> {
    if ops == [] then []
    else (if ops[0].AppendOp? then [ops[0].e] else []) + AppendedBy(ops[1..])
  }

  ghost predicate Inv(w: World) {
    && EventsOk(w.es)
    && w.writer < |w.logs|
    && (forall i :: 0 <= i < |w.logs| ==> Tracks(w.es, w.logs[i]))
    && (w.logs[w.writer].cache == None || w.logs[w.writer].cache == Some(w.es))
  }

  lemma {:induction false} StepKeepsInv(w: World, op: Op)
    requires Inv(w) && Allowed(w, op) && (op.AppendOp? ==> EventOk(op.e))
    ensures Inv(Step(w, op))
  {
    hide FileText, Bytes, Synced, Appended;
    var w' := Step(w, op);
    match op
    case AppendOp(e, t) =>
      AppendIsExactIff(w.es, w.mtime, w.logs[w.writer], e, t);
      forall i | 0 <= i < |w'.logs| ensures Tracks(w'.es, w'.logs[i]) {
        if i != w.writer && w.logs[i].cache.Some? {
          var k := |w.logs[i].cache.value|;
          assert (w.es + [e])[..k] == w.es[..k];
        }
      }
    case ReadOp(i) => SyncIsExact(w.es, w.mtime, w.logs[i]);
    case ReopenOp =>
  }

  lemma {:induction false} RunKeepsInv(w: World, ops: seq<Op>, w': World)
    requires Inv(w) && Runs(w, ops, w')
    requires forall j :: 0 <= j < |ops| && ops[j].AppendOp? ==> EventOk(ops[j].e)
    ensures Inv(w')
    ensures w'.es == w.es + AppendedBy(ops)
    decreases |ops|
  {
    if ops == [] {
      assert w.es + [] == w.es;
    } else {
      var op := ops[0];
      StepKeepsInv(w, op);
      RunKeepsInv(Step(w, op), ops[1..], w');
      AppendedFirst(w.es, op, ops);
    }
  }

  lemma {:induction false} AppendedFirst(es: seq<Event>, op: Op, ops: seq<Op>)
    requires ops != [] && op == ops[0]
    ensures (if op.AppendOp? then es + [op.e] else es) + AppendedBy(ops[1..]) == es + AppendedBy(ops)
  {
    if op.AppendOp? {
      assert es + [op.e] + AppendedBy(ops[1..]) == es + ([op.e] + AppendedBy(ops[1..]));
    } else {
      assert [] + AppendedBy(ops[1..]) == AppendedBy(ops[1..]);
    }
  }

  /**
   With one writer at a time, after any sequence of appends, reads and reopenings,
   every log object, old or new, reads exactly the events the file started with
   followed by those appended, in order.
   */
  lemma {:induction false} ReadsAreExact(first: seq<Event>, mtime: int, ops: seq<Op>, w: World, i: nat)
    requires EventsOk(first) && Runs(World(first, mtime, [COLD], 0), ops, w)
    requires forall j :: 0 <= j < |ops| && ops[j].AppendOp? ==> EventOk(ops[j].e)
    requires i < |w.logs|
    ensures Synced(FileText(w.es), Some(w.mtime), w.logs[i]).cache == Some(first + AppendedBy(ops))
  {
    RunKeepsInv(World(first, mtime, [COLD], 0), ops, w);
    SyncIsExact(w.es, w.mtime, w.logs[i]);
  }
}

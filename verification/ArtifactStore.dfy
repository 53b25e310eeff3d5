/**
 The artifact store's handling of file reads: storing each read with its line
 range, finding it again by the request, and returning some of its lines.

 A digest stands for the text it is of, so an id is its ingredients.
 */
module ArtifactStore {
  import opened Options
  import opened TextLines
  import opened RequestKeys

  // ------------------------------------------------------------------
  // Lines of a stored read
  // ------------------------------------------------------------------

  datatype Lines = Content(text: string) | OutOfRange

  /** Lines of a text by 1-based bounds; an end past the last line is cut, a start past it is an error. */
  function SliceByLines(text: string, lineStart: int, lineEnd: int): Lines {
    var lines := SplitLines(text);
    var start := if lineStart < 1 then 1 else lineStart;
    var end := if lineEnd > |lines| then |lines| else lineEnd;
    if start > |lines| then OutOfRange
    else if start > end then Content("")
    else Content(Join(lines[start - 1..end]))
  }

  /** Who stored what: the digest's text, the path, the requested bounds, the open-ended flag. */
  datatype ArtifactId = ReadId(text: string, path: string, start: int, end: int, unbounded: bool)

  datatype Artifact = Artifact(
    id: ArtifactId,
    path: string,
    text: string,
    lineStart: int,
    lineEnd: int,
    requestKey: string,
    createdTurn: nat,
    accessCount: nat)

  /** The stored range is the lines that were read. */
  ghost predicate WellRanged(a: Artifact) {
    a.lineEnd == a.lineStart + |SplitLines(a.text)| - 1
  }

  /** Retrieving lines by their numbers in the file; an absent bound has a default. */
  function RetrieveLines(a: Artifact, lineStart: Option<int>, lineEnd: Option<int>): Lines {
    if lineStart == None && lineEnd == None then Content(a.text)
    else
      var from := if lineStart.Some? then lineStart.value else 1;
      var to := if lineEnd.Some? then lineEnd.value else a.lineEnd;
      if from < a.lineStart || to > a.lineEnd || from > to then OutOfRange
      else SliceByLines(a.text, from - a.lineStart + 1, to - a.lineStart + 1)
  }

  /**
   Asking for lines `from` to `to` succeeds exactly when they lie in the stored
   range, and returns exactly those lines of the file.
   */
  lemma {:induction false} RetrieveExactLines(a: Artifact, from: int, to: int)
    requires WellRanged(a)
    ensures RetrieveLines(a, Some(from), Some(to)).Content? <==> a.lineStart <= from <= to <= a.lineEnd
    ensures a.lineStart <= from <= to <= a.lineEnd ==>
              && var got := RetrieveLines(a, Some(from), Some(to)).text;
                 && SplitLines(got) == SplitLines(a.text)[from - a.lineStart..to - a.lineStart + 1]
                 && |SplitLines(got)| == to - from + 1
  {
    hide SplitLines, Join;
    if a.lineStart <= from <= to <= a.lineEnd {
      var part := SplitLines(a.text)[from - a.lineStart..to - a.lineStart + 1];
      SplitGivesLines(a.text);
      SplitUndoesJoin(part);
    }
  }

  lemma {:induction false} RetrieveIsJoin(a: Artifact, from: int, to: int)
    requires WellRanged(a) && a.lineStart <= from <= to <= a.lineEnd
    ensures RetrieveLines(a, Some(from), Some(to))
            == Content(Join(SplitLines(a.text)[from - a.lineStart..to - a.lineStart + 1]))
  {
  }

  /** Adjacent retrievals rejoin, and the whole range is the stored text. */
  lemma {:induction false} AdjacentRetrievalsRejoin(a: Artifact, from: int, mid: int, to: int)
    requires WellRanged(a) && a.lineStart <= from <= mid < to <= a.lineEnd
    ensures var left := RetrieveLines(a, Some(from), Some(mid));
            var right := RetrieveLines(a, Some(mid + 1), Some(to));
            && left.Content? && right.Content?
            && RetrieveLines(a, Some(from), Some(to)) == Content(left.text + "\n" + right.text)
  {
    RetrieveIsJoin(a, from, mid);
    RetrieveIsJoin(a, mid + 1, to);
    RetrieveIsJoin(a, from, to);
    var lines := SplitLines(a.text);
    RejoinSlices(lines, from - a.lineStart, mid - a.lineStart + 1, to - a.lineStart + 1);
  }

  lemma {:induction false} RejoinSlices(lines: seq<string>, i: nat, j: nat, k: nat)
    requires i < j < k <= |lines|
    ensures Join(lines[i..j]) + "\n" + Join(lines[j..k]) == Join(lines[i..k])
  {
    JoinConcat(lines[i..j], lines[j..k]);
    assert lines[i..j] + lines[j..k] == lines[i..k];
  }

  /** An absent start is line 1 of the file, not the first line stored. */
  lemma {:induction false} AbsentStart(a: Artifact, to: int)
    requires WellRanged(a)
    ensures RetrieveLines(a, None, Some(to)).Content? <==> a.lineStart <= 1 <= to <= a.lineEnd
    ensures RetrieveLines(a, None, Some(to)).Content? ==>
              SplitLines(RetrieveLines(a, None, Some(to)).text)
              == SplitLines(a.text)[1 - a.lineStart..to - a.lineStart + 1]
  {
    hide SplitLines, SliceByLines;
    RetrieveExactLines(a, 1, to);
  }

  /** An absent end is the last line stored. */
  lemma {:induction false} AbsentEnd(a: Artifact, from: int)
    requires WellRanged(a)
    ensures RetrieveLines(a, Some(from), None).Content? <==> a.lineStart <= from <= a.lineEnd
    ensures RetrieveLines(a, Some(from), None).Content? ==>
              SplitLines(RetrieveLines(a, Some(from), None).text) == SplitLines(a.text)[from - a.lineStart..]
  {
    hide SplitLines, SliceByLines;
    RetrieveExactLines(a, from, a.lineEnd);
  }

  /** Of a read that got lines `first` and on of a file, any stored lines come back as they are in the file. */
  lemma {:induction false} RetrievesFileLines(a: Artifact, file: seq<string>, from: int, to: int)
    requires WellRanged(a) && 1 <= a.lineStart && a.lineEnd <= |file|
    requires SplitLines(a.text) == file[a.lineStart - 1..a.lineEnd]
    requires a.lineStart <= from <= to <= a.lineEnd
    ensures RetrieveLines(a, Some(from), Some(to)).Content?
    ensures SplitLines(RetrieveLines(a, Some(from), Some(to)).text) == file[from - 1..to]
  {
    hide SplitLines, RetrieveLines;
    RetrieveExactLines(a, from, to);
    SliceOfSlice(file, a.lineStart - 1, a.lineEnd, from - a.lineStart, to - a.lineStart + 1);
  }

  lemma {:induction false} SliceOfSlice(file: seq<string>, from: nat, to: nat, i: nat, j: nat)
    requires from <= to <= |file| && i <= j <= to - from
    ensures file[from..to][i..j] == file[from + i..from + j]
  {
    var part := file[from..to];
    assert forall k :: i <= k < j ==> part[k] == file[from + k];
  }

  lemma {:induction false} WholeRangeIsTheText(a: Artifact)
    requires WellRanged(a)
    ensures RetrieveLines(a, Some(a.lineStart), Some(a.lineEnd)) == RetrieveLines(a, None, None) == Content(a.text)
  {
    RetrieveIsJoin(a, a.lineStart, a.lineEnd);
    JoinUndoesSplit(a.text);
    assert SplitLines(a.text)[0..|SplitLines(a.text)|] == SplitLines(a.text);
  }

  // ------------------------------------------------------------------
  // Requests
  // ------------------------------------------------------------------

  /** A read_file request: an absent offset means the first line, an absent limit means to the end. */
  datatype Request = Request(path: string, offset: Option<int>, limit: Option<int>)

  function Start(r: Request): int {
    if r.offset.Some? then r.offset.value else 1
  }

  /** 0 stands for "to the end". */
  function End(r: Request): int {
    if r.limit.Some? then Start(r) + r.limit.value - 1 else 0
  }

  function KeyOf(r: Request): string {
    RequestKey(r.path, Start(r), End(r))
  }

  /** Two requests mean the same lines. */
  predicate SameRequest(r: Request, q: Request) {
    r.path == q.path && Start(r) == Start(q) && r.limit == q.limit
  }

  /** A bounded request whose end computes to the sentinel; none does with offset and limit at least 1. */
  predicate LooksUnbounded(r: Request) {
    r.limit.Some? && Start(r) + r.limit.value == 1
  }

  predicate AtLeastOne(r: Request) {
    Start(r) >= 1 && (r.limit.Some? ==> r.limit.value >= 1)
  }

  /**
   Requests share a key exactly when they mean the same lines, or one is open
   ended and the other, from the same line, ends at the sentinel.
   */
  lemma {:induction false} KeysMeanRequests(r: Request, q: Request)
    ensures KeyOf(r) == KeyOf(q) <==>
              || SameRequest(r, q)
              || (r.path == q.path && Start(r) == Start(q)
                  && ((r.limit == None && LooksUnbounded(q)) || (q.limit == None && LooksUnbounded(r))))
    ensures AtLeastOne(r) && AtLeastOne(q) ==> (KeyOf(r) == KeyOf(q) <==> SameRequest(r, q))
  {
    KeyIsInjective(r.path, Start(r), End(r), q.path, Start(q), End(q));
  }

  // ------------------------------------------------------------------
  // The store
  // ------------------------------------------------------------------

  /** The rows by id, and the index from request keys to ids. */
  datatype Store = Store(rows: map<ArtifactId, Artifact>, index: map<string, ArtifactId>)

  const EMPTY_STORE := Store(map[], map[])

  datatype Ingested = Inlined | StoredAs(id: ArtifactId) | ConstraintViolated

  function IdOf(r: Request, text: string): ArtifactId {
    ReadId(text, r.path, Start(r), End(r), r.limit == None)
  }

  function RowOf(r: Request, text: string, turn: nat): Artifact {
    Artifact(IdOf(r, text), r.path, text, Start(r), Start(r) + |SplitLines(text)| - 1, KeyOf(r), turn, 0)
  }

  function Touched(s: Store, id: ArtifactId): Store
    requires id in s.rows
  {
    s.(rows := s.rows[id := s.rows[id].(accessCount := s.rows[id].accessCount + 1)])
  }

  /** The row the index gives for the request, if it holds this very text. */
  predicate Known(s: Store, r: Request, text: string) {
    && KeyOf(r) in s.index
    && s.index[KeyOf(r)] in s.rows
    && s.rows[s.index[KeyOf(r)]].text == text
  }

  /** Ingesting the result of a read. The id is the rows' primary key. */
  function Ingest(s: Store, r: Request, text: string, isError: bool, turn: nat): (Store, Ingested) {
    if isError then (s, Inlined)
    else if Known(s, r, text) then (Touched(s, s.index[KeyOf(r)]), StoredAs(s.index[KeyOf(r)]))
    else if IdOf(r, text) in s.rows then (s, ConstraintViolated)
    else
      var row := RowOf(r, text, turn);
      (Store(s.rows[row.id := row], s.index[KeyOf(r) := row.id]), StoredAs(row.id))
  }

  function Find(s: Store, r: Request): Option<Artifact> {
    if KeyOf(r) in s.index && s.index[KeyOf(r)] in s.rows then Some(s.rows[s.index[KeyOf(r)]]) else None
  }

  function Clear(s: Store, path: string): Store {
    s.(index := map k | k in s.index && !StartsWith(k, path + "#") :: s.index[k])
  }

  /** The store of a resumed session: the index is rebuilt from all rows, in the given order. */
  function Rebuilt(s: Store, order: seq<Artifact>): Store {
    s.(index := IndexOf(order))
  }

  function IndexOf(order: seq<Artifact>): map<string, ArtifactId>
    decreases |order|
  {
    if order == [] then map[]
    else IndexOf(order[..|order| - 1])[order[|order| - 1].requestKey := order[|order| - 1].id]
  }

  class ArtifactStore {
    var rows: map<ArtifactId, Artifact>
    var fileReadIndex: map<string, ArtifactId>

    function Value(): Store
      reads this
    {
      Store(rows, fileReadIndex)
    }

    constructor ()
      ensures Value() == EMPTY_STORE
    {
      rows, fileReadIndex := map[], map[];
    }

    method IngestToolResult(r: Request, text: string, isError: bool, turn: nat) returns (o: Ingested)
      modifies this
      ensures (Value(), o) == Ingest(old(Value()), r, text, isError, turn)
    {
      if isError {
        return Inlined;
      }
      var key := KeyOf(r);
      if key in fileReadIndex {
        var existing := fileReadIndex[key];
        if existing in rows && rows[existing].text == text {
          rows := rows[existing := rows[existing].(accessCount := rows[existing].accessCount + 1)];
          return StoredAs(existing);
        }
      }
      var row := RowOf(r, text, turn);
      if row.id in rows {
        return ConstraintViolated;
      }
      rows := rows[row.id := row];
      fileReadIndex := fileReadIndex[key := row.id];
      return StoredAs(row.id);
    }

    method FindFileReadArtifactByRange(r: Request) returns (a: Option<Artifact>)
      ensures a == Find(Value(), r)
    {
      var key := KeyOf(r);
      if key in fileReadIndex && fileReadIndex[key] in rows {
        return Some(rows[fileReadIndex[key]]);
      }
      return None;
    }

    /** Visit every key and delete those that begin with the path and a '#'. */
    method ClearFileReadAllRanges(path: string)
      modifies this`fileReadIndex
      ensures Value() == Clear(old(Value()), path)
    {
      var before := fileReadIndex;
      var rest := before.Keys;
      while rest != {}
        invariant rest <= before.Keys && fileReadIndex.Keys <= before.Keys
        invariant forall k :: k in fileReadIndex ==> fileReadIndex[k] == before[k]
        invariant forall k :: k in before ==> (k in fileReadIndex <==> k in rest || !StartsWith(k, path + "#"))
        decreases rest
      {
        var k :| k in rest;
        if StartsWith(k, path + "#") {
          fileReadIndex := fileReadIndex - {k};
        }
        rest := rest - {k};
      }
      assert fileReadIndex == Clear(old(Value()), path).index;
    }

    method RebuildFileReadIndex(order: seq<Artifact>)
      modifies this`fileReadIndex
      ensures Value() == Rebuilt(old(Value()), order)
    {
      fileReadIndex := map[];
      for i := 0 to |order|
        invariant fileReadIndex == IndexOf(order[..i])
      {
        assert order[..i + 1][..i] == order[..i];
        fileReadIndex := fileReadIndex[order[i].requestKey := order[i].id];
      }
      assert order[..|order|] == order;
    }
  }

  // ------------------------------------------------------------------
  // What a session can rely on
  // ------------------------------------------------------------------

  /** Rows are filed under their own id, hold the lines they claim, and are what their id says. */
  ghost predicate RowOk(s: Store, id: ArtifactId)
    requires id in s.rows
  {
    && s.rows[id].id == id
    && s.rows[id].text == id.text && s.rows[id].path == id.path
    && s.rows[id].requestKey == RequestKey(id.path, id.start, id.end)
    && WellRanged(s.rows[id]) && s.rows[id].lineStart == id.start
  }

  ghost predicate RowsOk(s: Store) {
    forall id :: id in s.rows ==> RowOk(s, id)
  }

  ghost predicate Inv(s: Store) {
    && RowsOk(s)
    && (forall k :: k in s.index ==> s.index[k] in s.rows && s.rows[s.index[k]].requestKey == k)
  }

  lemma {:induction false} IngestKeepsInv(s: Store, r: Request, text: string, isError: bool, turn: nat)
    requires Inv(s)
    ensures Inv(Ingest(s, r, text, isError, turn).0)
  {
    var s' := Ingest(s, r, text, isError, turn).0;
    var row := RowOf(r, text, turn);
    assert row.id == IdOf(r, text) && WellRanged(row);
    assert row.requestKey == RequestKey(row.id.path, row.id.start, row.id.end);
    forall id | id in s'.rows ensures RowOk(s', id) {
      assert id in s.rows ==> RowOk(s, id);
    }
  }

  lemma {:induction false} ClearKeepsInv(s: Store, path: string)
    requires Inv(s)
    ensures Inv(Clear(s, path))
  {
  }

  /**
   Repeating a request finds the artifact just stored for it, with the text that
   was read; requests with another key find what they found before.
   */
  lemma {:induction false} RepeatFindsIt(s: Store, r: Request, text: string, turn: nat, q: Request)
    requires Inv(s) && Ingest(s, r, text, false, turn).1.StoredAs?
    ensures var (s', o) := Ingest(s, r, text, false, turn);
            && Find(s', r).Some? && Find(s', r).value.id == o.id
            && Find(s', r).value.text == text && Find(s', r).value.path == r.path
            && WellRanged(Find(s', r).value) && Find(s', r).value.lineStart == Start(r)
            && (KeyOf(q) != KeyOf(r) ==>
                  (match Find(s, q)
                   case None => Find(s', q) == None
                   case Some(a) => Find(s', q).Some? && Find(s', q).value.id == a.id))
  {
    var (s', o) := Ingest(s, r, text, false, turn);
    IngestKeepsInv(s, r, text, false, turn);
    var found := Find(s', r).value;
    assert found.requestKey == KeyOf(r);
    KeyIsInjective(found.id.path, found.id.start, found.id.end, r.path, Start(r), End(r));
  }

  lemma {:induction false} StoredIsKnown(s: Store, r: Request, text: string, turn: nat)
    requires Inv(s) && Ingest(s, r, text, false, turn).1.StoredAs?
    ensures var (s', o) := Ingest(s, r, text, false, turn);
            && Known(s', r, text) && s'.index[KeyOf(r)] == o.id
            && (o.id !in s.rows ==> s'.rows[o.id].createdTurn == turn && s'.rows[o.id].accessCount == 0)
  {
    hide KeyOf, IdOf, WellRanged, Inv, SplitLines;
  }

  lemma {:induction false} KnownIsReused(s: Store, r: Request, text: string, turn: nat)
    requires Known(s, r, text)
    ensures var id := s.index[KeyOf(r)];
            var row := s.rows[id].(accessCount := s.rows[id].accessCount + 1);
            Ingest(s, r, text, false, turn) == (s.(rows := s.rows[id := row]), StoredAs(id))
  {
    hide KeyOf, IdOf, RowOf;
  }

  /** Reading the same text by the same request again stores nothing: the row is reused and counted once more. */
  lemma {:induction false} SameReadIsReused(s: Store, r: Request, text: string, turn: nat, later: nat)
    requires Inv(s) && Ingest(s, r, text, false, turn).1.StoredAs?
    ensures var (s', o) := Ingest(s, r, text, false, turn);
            var (s'', o') := Ingest(s', r, text, false, later);
            && o' == o && o.id in s'.rows
            && (o.id !in s.rows ==> s'.rows[o.id].createdTurn == turn && s'.rows[o.id].accessCount == 0)
            && s''.index == s'.index
            && s''.rows == s'.rows[o.id := s'.rows[o.id].(accessCount := s'.rows[o.id].accessCount + 1)]
  {
    hide Ingest, Inv, KeyOf, IdOf, RowOf, Touched;
    StoredIsKnown(s, r, text, turn);
    KnownIsReused(Ingest(s, r, text, false, turn).0, r, text, later);
  }

  /** After a path is cleared no range of it is found; a request for another path is lost only as `ClearedKeys` says. */
  lemma {:induction false} ClearForgetsThePath(s: Store, path: string, q: Request)
    requires Inv(s)
    ensures var s' := Clear(s, path);
            && (q.path == path ==> Find(s', q) == None)
            && (Find(s', q) == if path == q.path || StartsWith(q.path, path + "#")
                                  || path == q.path + "#" + Decimal(Start(q))
                               then None else Find(s, q))
  {
    ClearedKeys(path, q.path, Start(q), End(q));
  }

  /** Two paths without '#' never share a fate. */
  lemma {:induction false} ClearSparesOtherPaths(s: Store, path: string, q: Request)
    requires Inv(s) && q.path != path && '#' !in path && '#' !in q.path
    ensures Find(Clear(s, path), q) == Find(s, q)
  {
    ClearForgetsThePath(s, path, q);
    ContinuesAfterHash(q.path, path);
    ContinuesAfterHash(q.path + "#" + Decimal(Start(q)), q.path);
    assert q.path + "#" <= q.path + "#" + Decimal(Start(q));
  }

  /**
   The paths do matter: clearing a path whose name ends like a key drops the
   ranges of another file.
   */
  lemma {:induction false} ClearCanHitAnotherFile(q: Request, text: string, turn: nat)
    ensures var (s, o) := Ingest(EMPTY_STORE, q, text, false, turn);
            && Find(s, q).Some?
            && Find(Clear(s, q.path + "#" + Decimal(Start(q))), q) == None
  {
    var s := Ingest(EMPTY_STORE, q, text, false, turn).0;
    IngestKeepsInv(EMPTY_STORE, q, text, false, turn);
    ClearForgetsThePath(s, q.path + "#" + Decimal(Start(q)), q);
  }

  /**
   Ingesting fails on the primary key exactly when this text was stored before for
   this request but the index no longer says so.
   */
  lemma {:induction false} WhenIngestFails(s: Store, r: Request, text: string, turn: nat)
    requires Inv(s)
    ensures Ingest(s, r, text, false, turn).1 == ConstraintViolated
            <==> IdOf(r, text) in s.rows && (Find(s, r) == None || Find(s, r).value.text != text)
  {
  }

  /** In particular, reading a file again unchanged after its ranges were cleared always fails. */
  lemma {:induction false} UnchangedRereadFails(s: Store, r: Request, text: string, turn: nat, later: nat)
    requires Inv(s) && Ingest(s, r, text, false, turn).1.StoredAs?
    requires Ingest(s, r, text, false, turn).1.id == IdOf(r, text)
    ensures Ingest(Clear(Ingest(s, r, text, false, turn).0, r.path), r, text, false, later).1 == ConstraintViolated
  {
    var s1 := Ingest(s, r, text, false, turn).0;
    IngestKeepsInv(s, r, text, false, turn);
    ClearForgetsThePath(s1, r.path, r);
    ClearKeepsInv(s1, r.path);
    WhenIngestFails(Clear(s1, r.path), r, text, later);
  }

  /**
   A resumed session finds a range exactly when some row was ever stored under its
   key, so ranges cleared before the restart come back.
   */
  lemma {:induction false} ResumeRevivesClearedRanges(s: Store, order: seq<Artifact>, q: Request)
    requires RowsOk(s)
    requires forall a :: a in order <==> exists id :: id in s.rows && s.rows[id] == a
    ensures Find(Rebuilt(s, order), q).Some? <==> exists id :: id in s.rows && s.rows[id].requestKey == KeyOf(q)
  {
    IndexOfProperty(order);
    var index := IndexOf(order);
    if KeyOf(q) in index {
      var a :| a in order && a.requestKey == KeyOf(q) && index[KeyOf(q)] == a.id;
      var id :| id in s.rows && s.rows[id] == a;
      assert s.rows[id].requestKey == KeyOf(q);
    }
    if id :| id in s.rows && s.rows[id].requestKey == KeyOf(q) {
      assert s.rows[id] in order;
    }
  }

  lemma {:induction false} IndexOfProperty(order: seq<Artifact>)
    ensures forall a :: a in order ==> a.requestKey in IndexOf(order)
    ensures forall k :: k in IndexOf(order) ==>
              exists a :: a in order && a.requestKey == k && IndexOf(order)[k] == a.id
    decreases |order|
  {
    if order != [] {
      var before, last := order[..|order| - 1], order[|order| - 1];
      IndexOfProperty(before);
      assert order == before + [last];
      forall k | k in IndexOf(order)
        ensures exists a :: a in order && a.requestKey == k && IndexOf(order)[k] == a.id
      {
        if k == last.requestKey {
          assert last in order;
        } else {
          var a :| a in before && a.requestKey == k && IndexOf(before)[k] == a.id;
          assert a in order;
        }
      }
    }
  }
}

/**
 The artifact store over whole sessions: reads that are stored, writes that clear a
 path, and restarts that rebuild the index. What the store holds is told from the
 history alone.
 */
module ArtifactRuns {
  import opened ArtifactStore
  import opened Options
  import opened RequestKeys

  datatype Op =
    | Read(request: Request, text: string, isError: bool, turn: nat)
    | Written(path: string)
    | Resumed(order: seq<Artifact>)

  function Step(s: Store, op: Op): Store {
    match op
    case Read(r, text, isError, turn) => Ingest(s, r, text, isError, turn).0
    case Written(path) => Clear(s, path)
    case Resumed(order) => Rebuilt(s, order)
  }

  function After(ops: seq<Op>): Store
    decreases |ops|
  {
    if ops == [] then EMPTY_STORE else Step(After(ops[..|ops| - 1]), ops[|ops| - 1])
  }

  /** A restart rebuilds the index from all rows there are. */
  ghost predicate Lists(order: seq<Artifact>, s: Store) {
    forall a :: a in order <==> a.id in s.rows && s.rows[a.id] == a
  }

  /** Offsets and limits are at least 1, and a restart finds the rows of this very session. */
  ghost predicate Proper(ops: seq<Op>)
    decreases |ops|
  {
    ops != [] ==>
      && Proper(ops[..|ops| - 1])
      && (ops[|ops| - 1].Read? ==> AtLeastOne(ops[|ops| - 1].request))
      && (ops[|ops| - 1].Resumed? ==> Lists(ops[|ops| - 1].order, After(ops[..|ops| - 1])))
  }

  // ------------------------------------------------------------------
  // Every reachable store
  // ------------------------------------------------------------------

  lemma {:induction false} RebuiltKeepsInv(s: Store, order: seq<Artifact>)
    requires Inv(s) && Lists(order, s)
    ensures Inv(Rebuilt(s, order))
  {
    IndexOfProperty(order);
    forall id | id in s.rows ensures RowOk(Rebuilt(s, order), id) {
      assert RowOk(s, id);
    }
  }

  lemma {:induction false} ReachableInv(ops: seq<Op>)
    requires Proper(ops)
    ensures Inv(After(ops))
    decreases |ops|
  {
    if ops != [] {
      var s := After(ops[..|ops| - 1]);
      ReachableInv(ops[..|ops| - 1]);
      match ops[|ops| - 1]
      case Read(r, text, isError, turn) => IngestKeepsInv(s, r, text, isError, turn);
      case Written(path) => ClearKeepsInv(s, path);
      case Resumed(order) => RebuiltKeepsInv(s, order);
    }
  }

  // ------------------------------------------------------------------
  // What the history says
  // ------------------------------------------------------------------

  predicate Stores(op: Op, r: Request, text: string) {
    op.Read? && !op.isError && SameRequest(op.request, r) && op.text == text
  }

  /** This text was read for this request. */
  predicate WasRead(ops: seq<Op>, r: Request, text: string) {
    exists i :: 0 <= i < |ops| && Stores(ops[i], r, text)
  }

  /** Clearing the path drops the request's range. */
  predicate Hits(path: string, r: Request) {
    path == r.path || StartsWith(r.path, path + "#") || path == r.path + "#" + Decimal(Start(r))
  }

  function LastText(order: seq<Artifact>, key: string): Option<string>
    decreases |order|
  {
    if order == [] then None
    else if order[|order| - 1].requestKey == key then Some(order[|order| - 1].text)
    else LastText(order[..|order| - 1], key)
  }

  /** The text a repeat of the request would find now. */
  function Held(ops: seq<Op>, r: Request): Option<string>
    decreases |ops|
  {
    if ops == [] then None
    else
      var before := ops[..|ops| - 1];
      match ops[|ops| - 1]
      case Read(q, text, isError, _) =>
        if !isError && SameRequest(q, r) && !(WasRead(before, r, text) && Held(before, r) != Some(text)) then Some(text)
        else Held(before, r)
      case Written(path) => if Hits(path, r) then None else Held(before, r)
      case Resumed(order) => LastText(order, KeyOf(r))
  }

  /** The rows are exactly the reads of the history. */
  ghost predicate RowsAreReads(ops: seq<Op>, s: Store) {
    && (forall i :: 0 <= i < |ops| && ops[i].Read? && !ops[i].isError ==> IdOf(ops[i].request, ops[i].text) in s.rows)
    && (forall id :: id in s.rows ==>
          exists i :: 0 <= i < |ops| && ops[i].Read? && !ops[i].isError && AtLeastOne(ops[i].request)
                      && id == IdOf(ops[i].request, ops[i].text))
  }

  /** With offsets and limits at least 1 the id says what the request and the text were. */
  lemma {:induction false} IdMeansRequest(r: Request, t: string, q: Request, u: string)
    requires AtLeastOne(r) && AtLeastOne(q)
    ensures IdOf(r, t) == IdOf(q, u) <==> SameRequest(r, q) && t == u
  {
  }

  lemma {:induction false} RowFromRead(ops: seq<Op>, s: Store, id: ArtifactId) returns (i: nat)
    requires RowsAreReads(ops, s) && id in s.rows
    ensures i < |ops| && ops[i].Read? && !ops[i].isError && AtLeastOne(ops[i].request)
    ensures id == IdOf(ops[i].request, ops[i].text)
  {
    i :| 0 <= i < |ops| && ops[i].Read? && !ops[i].isError && AtLeastOne(ops[i].request)
         && id == IdOf(ops[i].request, ops[i].text);
  }

  /** A read the index already knows is a row of exactly that id. */
  lemma {:induction false} KnownIsStored(ops: seq<Op>, s: Store, r: Request, text: string)
    requires Inv(s) && RowsAreReads(ops, s) && AtLeastOne(r) && Known(s, r, text)
    ensures IdOf(r, text) in s.rows
  {
    var id := s.index[KeyOf(r)];
    assert RowOk(s, id);
    KeyIsInjective(id.path, id.start, id.end, r.path, Start(r), End(r));
    var i := RowFromRead(ops, s, id);
  }

  lemma {:induction false} StepAddsItsRead(before: seq<Op>, last: Op, s: Store)
    requires Inv(s) && RowsAreReads(before, s) && (last.Read? ==> AtLeastOne(last.request))
    ensures RowsAreReads(before + [last], Step(s, last))
  {
    if last.Read? && !last.isError && Known(s, last.request, last.text) {
      KnownIsStored(before, s, last.request, last.text);
    }
    RowsGrow(before, last, s);
  }

  lemma {:induction false} ReadsBecomeRows(ops: seq<Op>)
    requires Proper(ops)
    ensures RowsAreReads(ops, After(ops))
    decreases |ops|
  {
    if ops != [] {
      var before, last := ops[..|ops| - 1], ops[|ops| - 1];
      ReadsBecomeRows(before);
      ReachableInv(before);
      StepAddsItsRead(before, last, After(before));
      assert before + [last] == ops;
    }
  }

  lemma {:induction false} RowsGrow(before: seq<Op>, last: Op, s: Store)
    requires RowsAreReads(before, s) && (last.Read? ==> AtLeastOne(last.request))
    requires last.Read? && !last.isError && Known(s, last.request, last.text) ==>
               IdOf(last.request, last.text) in s.rows
    ensures RowsAreReads(before + [last], Step(s, last))
  {
    var ops, s' := before + [last], Step(s, last);
    assert forall id :: id in s.rows ==> id in s'.rows;
    forall id | id in s'.rows
      ensures exists i :: 0 <= i < |ops| && ops[i].Read? && !ops[i].isError && AtLeastOne(ops[i].request)
                          && id == IdOf(ops[i].request, ops[i].text)
    {
      if id in s.rows {
        var i := RowFromRead(before, s, id);
        assert ops[i] == before[i];
      } else {
        assert ops[|before|] == last;
      }
    }
    forall i | 0 <= i < |ops| && ops[i].Read? && !ops[i].isError
      ensures IdOf(ops[i].request, ops[i].text) in s'.rows
    {
      if i < |before| {
        assert ops[i] == before[i];
      }
    }
  }

  /** A row for the request and the text is there iff that was read. */
  lemma {:induction false} RowIffRead(ops: seq<Op>, r: Request, text: string)
    requires Proper(ops) && AtLeastOne(r)
    ensures IdOf(r, text) in After(ops).rows <==> WasRead(ops, r, text)
  {
    ReadsBecomeRows(ops);
    if IdOf(r, text) in After(ops).rows {
      var i := RowFromRead(ops, After(ops), IdOf(r, text));
      IdMeansRequest(r, text, ops[i].request, ops[i].text);
      assert Stores(ops[i], r, text);
    }
  }

  // ------------------------------------------------------------------
  // The index follows the history
  // ------------------------------------------------------------------

  function TextOf(a: Option<Artifact>): Option<string> {
    if a.Some? then Some(a.value.text) else None
  }

  lemma {:induction false} RebuiltHolds(s: Store, order: seq<Artifact>, r: Request)
    requires Inv(s) && Lists(order, s)
    ensures TextOf(Find(Rebuilt(s, order), r)) == LastText(order, KeyOf(r))
  {
    LastIsIndexed(order, KeyOf(r));
    RebuiltKeepsInv(s, order);
    if LastText(order, KeyOf(r)).Some? {
      var a :| a in order && a.id == IndexOf(order)[KeyOf(r)] && LastText(order, KeyOf(r)) == Some(a.text);
    }
  }

  lemma {:induction false} LastIsIndexed(order: seq<Artifact>, key: string)
    ensures LastText(order, key).Some? <==> key in IndexOf(order)
    ensures key in IndexOf(order) ==>
              exists a :: a in order && a.id == IndexOf(order)[key] && LastText(order, key) == Some(a.text)
    decreases |order|
  {
    if order != [] {
      var before, last := order[..|order| - 1], order[|order| - 1];
      LastIsIndexed(before, key);
      assert order == before + [last];
      if last.requestKey == key {
        assert last in order;
      } else if key in IndexOf(before) {
        var a :| a in before && a.id == IndexOf(before)[key] && LastText(before, key) == Some(a.text);
        assert a in order;
      }
    }
  }

  lemma {:induction false} IngestHolds(s: Store, q: Request, text: string, turn: nat, r: Request)
    requires Inv(s) && AtLeastOne(q) && AtLeastOne(r)
    ensures TextOf(Find(Ingest(s, q, text, false, turn).0, r))
            == if SameRequest(q, r) && !(IdOf(q, text) in s.rows && TextOf(Find(s, r)) != Some(text)) then Some(text)
               else TextOf(Find(s, r))
  {
    KeysMeanRequests(q, r);
  }

  /** What a repeated request finds is what the history says. */
  lemma {:induction false} IndexFollowsHistory(ops: seq<Op>, r: Request)
    requires Proper(ops) && AtLeastOne(r)
    ensures TextOf(Find(After(ops), r)) == Held(ops, r)
    decreases |ops|
  {
    if ops != [] {
      var before, last := ops[..|ops| - 1], ops[|ops| - 1];
      var s := After(before);
      IndexFollowsHistory(before, r);
      ReachableInv(before);
      match last
      case Read(q, text, isError, turn) =>
        if !isError {
          IngestHolds(s, q, text, turn, r);
          RowIffRead(before, r, text);
          IdMeansRequest(q, text, r, text);
        }
      case Written(path) => ClearForgetsThePath(s, path, r);
      case Resumed(order) => RebuiltHolds(s, order, r);
    }
  }

  /**
   In any session a read fails on the primary key if and only if this very text was
   read for this request before and a repeat would not find it now.
   */
  lemma {:induction false} ReadFailsIff(ops: seq<Op>, r: Request, text: string, turn: nat)
    requires Proper(ops) && AtLeastOne(r)
    ensures Ingest(After(ops), r, text, false, turn).1 == ConstraintViolated
            <==> WasRead(ops, r, text) && Held(ops, r) != Some(text)
  {
    ReachableInv(ops);
    WhenIngestFails(After(ops), r, text, turn);
    RowIffRead(ops, r, text);
    IndexFollowsHistory(ops, r);
  }

  /** A read that does not fail is found by its repeat, and so is every other request that was. */
  lemma {:induction false} ReadIsFoundAgain(ops: seq<Op>, r: Request, text: string, turn: nat, q: Request)
    requires Proper(ops) && AtLeastOne(r) && AtLeastOne(q)
    requires Ingest(After(ops), r, text, false, turn).1.StoredAs?
    ensures Held(ops + [Read(r, text, false, turn)], r) == Some(text)
    ensures !SameRequest(r, q) ==> Held(ops + [Read(r, text, false, turn)], q) == Held(ops, q)
    ensures var found := Find(After(ops + [Read(r, text, false, turn)]), r);
            && found.Some? && found.value.text == text && found.value.path == r.path
            && WellRanged(found.value) && found.value.lineStart == Start(r)
  {
    var ops' := ops + [Read(r, text, false, turn)];
    assert ops'[..|ops|] == ops;
    ReadFailsIff(ops, r, text, turn);
    ReachableInv(ops);
    RepeatFindsIt(After(ops), r, text, turn, r);
  }

  // ------------------------------------------------------------------
  // When the repeat stops finding it
  // ------------------------------------------------------------------

  /** The step takes the index away from the text: a write to the path, or another text stored. */
  predicate Displaces(ops: seq<Op>, k: nat, r: Request, text: string)
    requires k < |ops|
  {
    match ops[k]
    case Read(_, other, _, _) => other != text && Stores(ops[k], r, other) && Held(ops[..k + 1], r) == Some(other)
    case Written(path) => Hits(path, r)
    case Resumed(_) => false
  }

  ghost predicate DisplacedSince(ops: seq<Op>, r: Request, text: string) {
    exists j, k :: 0 <= j < k < |ops| && Stores(ops[j], r, text) && Displaces(ops, k, r, text)
  }

  ghost predicate NoRestart(ops: seq<Op>) {
    forall i :: 0 <= i < |ops| ==> !ops[i].Resumed?
  }

  /**
   Within one process: the text was read and is not found any more if and only if
   after some read of it the path was written to or another text was stored.
   */
  lemma {:induction false} LostIffDisplaced(ops: seq<Op>, r: Request, text: string)
    requires NoRestart(ops)
    ensures WasRead(ops, r, text) && Held(ops, r) != Some(text) <==> DisplacedSince(ops, r, text)
    decreases |ops|
  {
    if ops != [] {
      var n := |ops| - 1;
      var before := ops[..n];
      LostIffDisplaced(before, r, text);
      assert ops[..n + 1] == ops;
      if DisplacedSince(before, r, text) {
        DisplacedStays(ops, r, text);
      } else {
        LastDisplaces(ops, r, text);
      }
    }
  }

  lemma {:induction false} SameStep(ops: seq<Op>, k: nat, r: Request, text: string)
    requires k < |ops| - 1
    ensures Displaces(ops[..|ops| - 1], k, r, text) <==> Displaces(ops, k, r, text)
  {
    assert ops[..|ops| - 1][..k + 1] == ops[..k + 1];
  }

  lemma {:induction false} DisplacedStays(ops: seq<Op>, r: Request, text: string)
    requires ops != [] && NoRestart(ops) && DisplacedSince(ops[..|ops| - 1], r, text)
    requires WasRead(ops[..|ops| - 1], r, text) && Held(ops[..|ops| - 1], r) != Some(text)
    ensures DisplacedSince(ops, r, text) && WasRead(ops, r, text) && Held(ops, r) != Some(text)
  {
    var before := ops[..|ops| - 1];
    var j, k :| 0 <= j < k < |before| && Stores(before[j], r, text) && Displaces(before, k, r, text);
    SameStep(ops, k, r, text);
    assert Stores(ops[j], r, text);
  }

  lemma {:induction false} DisplacedBefore(ops: seq<Op>, r: Request, text: string, j: nat, k: nat)
    requires j < k < |ops| - 1 && Stores(ops[j], r, text) && Displaces(ops, k, r, text)
    ensures DisplacedSince(ops[..|ops| - 1], r, text)
  {
    SameStep(ops, k, r, text);
    assert ops[..|ops| - 1][j] == ops[j];
  }

  lemma {:induction false} LastDisplaces(ops: seq<Op>, r: Request, text: string)
    requires ops != [] && NoRestart(ops) && !DisplacedSince(ops[..|ops| - 1], r, text)
    requires !(WasRead(ops[..|ops| - 1], r, text) && Held(ops[..|ops| - 1], r) != Some(text))
    ensures WasRead(ops, r, text) && Held(ops, r) != Some(text) <==> DisplacedSince(ops, r, text)
  {
    var n := |ops| - 1;
    var before := ops[..n];
    assert ops[..n + 1] == ops;
    if DisplacedSince(ops, r, text) {
      var j, k :| 0 <= j < k < |ops| && Stores(ops[j], r, text) && Displaces(ops, k, r, text);
      if k < n {
        DisplacedBefore(ops, r, text, j, k);
      }
    }
    if WasRead(ops, r, text) && Held(ops, r) != Some(text) {
      var j :| 0 <= j < |ops| && Stores(ops[j], r, text);
      if j < n {
        assert Stores(before[j], r, text);
        assert Displaces(ops, n, r, text);
      }
    }
  }

  /**
   So within one process a read fails if and only if this text was read for this
   request, and since then its path was written to or another text was stored for it.
   */
  lemma {:induction false} ReadFailsIffDisplaced(ops: seq<Op>, r: Request, text: string, turn: nat)
    requires Proper(ops) && NoRestart(ops) && AtLeastOne(r)
    ensures Ingest(After(ops), r, text, false, turn).1 == ConstraintViolated <==> DisplacedSince(ops, r, text)
  {
    ReadFailsIff(ops, r, text, turn);
    LostIffDisplaced(ops, r, text);
  }
}

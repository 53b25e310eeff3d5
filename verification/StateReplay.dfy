/**
 Saving the working memory in a checkpoint and rebuilding it on resume from the
 checkpoint and the log events that came after it.
 */
module StateReplay {
  import opened Options
  import opened StateGraph

  /** A log event as replay sees it. */
  datatype Entry = Entry(eventId: string, what: What)
  datatype What = ContextAction(action: LoggedAction) | StateReset | Other

  datatype Checkpoint = Checkpoint(
    lastEventId: string,
    sessionTurnCount: nat,
    stateGraphTurnCount: nat,
    objects: seq<Obj>,
    touchedTurn: map<Id, nat>)

  // ------------------------------------------------------------------
  // Replay
  // ------------------------------------------------------------------

  function ReplayEntry(g: Graph, e: Entry): Graph {
    match e.what
    case ContextAction(p) => ReplayAction(g, p)
    case StateReset => EMPTY_GRAPH
    case Other => g
  }

  function ReplayAll(g: Graph, es: seq<Entry>): Graph
    decreases |es|
  {
    if es == [] then g else ReplayEntry(ReplayAll(g, es[..|es| - 1]), es[|es| - 1])
  }

  function Effective(es: seq<Entry>): nat
    decreases |es|
  {
    if es == [] then 0 else Effective(es[..|es| - 1]) + if es[|es| - 1].what == Other then 0 else 1
  }

  method ReplayStateGraphFromEvents(graph: StateGraph, es: seq<Entry>, start: nat) returns (replayed: nat)
    requires start <= |es|
    modifies graph
    ensures graph.Value() == ReplayAll(old(graph.Value()), es[start..])
    ensures replayed == Effective(es[start..])
  {
    replayed := 0;
    ghost var suffix := es[start..];
    for i := start to |es|
      invariant graph.Value() == ReplayAll(old(graph.Value()), suffix[..i - start])
      invariant replayed == Effective(suffix[..i - start])
    {
      assert suffix[..i - start + 1][..i - start] == suffix[..i - start];
      match es[i].what {
        case ContextAction(p) =>
          graph.Replay(p);
          replayed := replayed + 1;
        case StateReset =>
          graph.ClearAll();
          replayed := replayed + 1;
        case Other =>
      }
    }
    assert suffix[..|suffix|] == suffix;
  }

  /** Position just after the first event with this id, or None. */
  function StartAfter(es: seq<Entry>, id: string): (r: Option<nat>)
    ensures r.Some? ==> 0 < r.value <= |es| && es[r.value - 1].eventId == id
    ensures r.Some? ==> forall i :: 0 <= i < r.value - 1 ==> es[i].eventId != id
    ensures r == None ==> forall i :: 0 <= i < |es| ==> es[i].eventId != id
  {
    if es == [] then None
    else if es[0].eventId == id then Some(1)
    else match StartAfter(es[1..], id)
      case None => None
      case Some(k) => Some(k + 1)
  }

  method FindReplayStartIndex(es: seq<Entry>, id: string) returns (start: Option<nat>)
    ensures start == StartAfter(es, id)
  {
    for i := 0 to |es|
      invariant forall j :: 0 <= j < i ==> es[j].eventId != id
    {
      if es[i].eventId == id {
        return Some(i + 1);
      }
    }
    return None;
  }

  lemma {:induction false} ReplayConcat(g: Graph, a: seq<Entry>, b: seq<Entry>)
    ensures ReplayAll(g, a + b) == ReplayAll(ReplayAll(g, a), b)
    decreases |b|
  {
    if b == [] {
      assert a + b == a;
    } else {
      ReplayConcat(g, a, b[..|b| - 1]);
      assert (a + b)[..|a + b| - 1] == a + b[..|b| - 1];
    }
  }

  // ------------------------------------------------------------------
  // Checkpoints
  // ------------------------------------------------------------------

  /** The snapshot order: by creation time, then by id. */
  predicate Before(a: Obj, b: Obj) {
    a.created < b.created || (a.created == b.created && a.id < b.id)
  }

  ghost predicate Sorted(objs: seq<Obj>) {
    forall i, j :: 0 <= i < j < |objs| ==> Before(objs[i], objs[j])
  }

  /** `objs` lists the objects of the map, retracted ones included, each once. */
  ghost predicate Lists(objs: seq<Obj>, objects: map<Id, Obj>) {
    && Sorted(objs)
    && (forall i :: 0 <= i < |objs| ==> objs[i].id in objects && objects[objs[i].id] == objs[i])
    && (forall k :: k in objects ==> objects[k] in objs)
  }

  ghost predicate IsCheckpoint(cp: Checkpoint, g: Graph, lastEventId: string, sessionTurns: nat) {
    && cp.lastEventId == lastEventId
    && cp.sessionTurnCount == sessionTurns
    && cp.stateGraphTurnCount == g.turn
    && Lists(cp.objects, g.objects)
    && cp.touchedTurn == g.touched
  }

  function Collect(objs: seq<Obj>): map<Id, Obj>
    decreases |objs|
  {
    if objs == [] then map[] else Collect(objs[..|objs| - 1])[objs[|objs| - 1].id := objs[|objs| - 1]]
  }

  function Restored(cp: Checkpoint): Graph {
    Graph(Collect(cp.objects), cp.touchedTurn, cp.stateGraphTurnCount)
  }

  method InsertSorted(objs: seq<Obj>, o: Obj) returns (r: seq<Obj>)
    requires Sorted(objs) && forall i :: 0 <= i < |objs| ==> objs[i].id != o.id
    ensures Sorted(r) && |r| == |objs| + 1
    ensures forall x :: x in r <==> x in objs || x == o
  {
    var i := 0;
    while i < |objs| && Before(objs[i], o)
      invariant 0 <= i <= |objs|
      invariant forall j :: 0 <= j < i ==> Before(objs[j], o)
    {
      i := i + 1;
    }
    r := objs[..i] + [o] + objs[i..];
    assert forall j :: i <= j < |objs| ==> Before(o, objs[j]);
    assert objs == objs[..i] + objs[i..];
  }

  method Snapshot(graph: StateGraph) returns (objs: seq<Obj>)
    requires WellKeyed(graph.Value())
    ensures Lists(objs, graph.objects)
  {
    objs := [];
    var rest := graph.objects.Keys;
    while rest != {}
      invariant rest <= graph.objects.Keys && Sorted(objs)
      invariant forall i :: 0 <= i < |objs| ==>
                  objs[i].id in graph.objects && objs[i].id !in rest && graph.objects[objs[i].id] == objs[i]
      invariant forall k :: k in graph.objects && k !in rest ==> graph.objects[k] in objs
      decreases rest
    {
      var k :| k in rest;
      var before := objs;
      objs := InsertSorted(objs, graph.objects[k]);
      rest := rest - {k};
      forall i | 0 <= i < |objs|
        ensures objs[i].id in graph.objects && objs[i].id !in rest && graph.objects[objs[i].id] == objs[i]
      {
        assert objs[i] in objs;
        if objs[i] in before {
          var j :| 0 <= j < |before| && before[j] == objs[i];
        }
      }
    }
  }

  method ExportCheckpoint(graph: StateGraph, lastEventId: string, sessionTurns: nat) returns (cp: Checkpoint)
    requires WellKeyed(graph.Value())
    ensures IsCheckpoint(cp, graph.Value(), lastEventId, sessionTurns)
  {
    var objs := Snapshot(graph);
    cp := Checkpoint(lastEventId, sessionTurns, graph.turnCount, objs, graph.touchedTurn);
  }

  method RestoreFromCheckpoint(graph: StateGraph, cp: Checkpoint)
    modifies graph
    ensures graph.Value() == Restored(cp)
  {
    graph.objects, graph.touchedTurn := map[], map[];
    for i := 0 to |cp.objects|
      invariant graph.objects == Collect(cp.objects[..i])
    {
      assert cp.objects[..i + 1][..i] == cp.objects[..i];
      graph.objects := graph.objects[cp.objects[i].id := cp.objects[i]];
    }
    assert cp.objects[..|cp.objects|] == cp.objects;
    graph.touchedTurn := cp.touchedTurn;
    graph.turnCount := cp.stateGraphTurnCount;
  }

  lemma {:induction false} CollectProperty(objs: seq<Obj>)
    ensures forall i :: 0 <= i < |objs| ==> objs[i].id in Collect(objs)
    ensures forall k :: k in Collect(objs) ==> Collect(objs)[k] in objs && Collect(objs)[k].id == k
    decreases |objs|
  {
    if objs != [] {
      var before, last := objs[..|objs| - 1], objs[|objs| - 1];
      CollectProperty(before);
      assert objs == before + [last];
      forall i | 0 <= i < |objs| ensures objs[i].id in Collect(objs) {
        if i < |before| {
          assert before[i].id in Collect(before);
        }
      }
    }
  }

  /** Restoring a checkpoint gives back exactly the graph it was taken of, retracted objects included. */
  lemma {:induction false} CheckpointRoundTrip(cp: Checkpoint, g: Graph, lastEventId: string, sessionTurns: nat)
    requires WellKeyed(g) && IsCheckpoint(cp, g, lastEventId, sessionTurns)
    ensures Restored(cp) == g
  {
    CollectProperty(cp.objects);
    var c := Collect(cp.objects);
    forall k | k in g.objects ensures k in c {
      assert g.objects[k] in cp.objects;
      var i :| 0 <= i < |cp.objects| && cp.objects[i] == g.objects[k];
      assert cp.objects[i].id == k;
    }
    forall k | k in c ensures k in g.objects && c[k] == g.objects[k] {
      var i :| 0 <= i < |cp.objects| && cp.objects[i] == c[k];
    }
    assert c == g.objects;
  }

  // ------------------------------------------------------------------
  // Resume
  // ------------------------------------------------------------------

  ghost predicate UniqueIds(es: seq<Entry>) {
    forall i, j :: 0 <= i < j < |es| ==> es[i].eventId != es[j].eventId
  }

  lemma {:induction false} ReplayAllKeepsInv(g: Graph, es: seq<Entry>)
    requires Inv(g)
    ensures Inv(ReplayAll(g, es))
    decreases |es|
  {
    if es != [] {
      ReplayAllKeepsInv(g, es[..|es| - 1]);
      var e := es[|es| - 1];
      if e.what.ContextAction? {
        ReplayKeepsInv(ReplayAll(g, es[..|es| - 1]), e.what.action);
      }
    }
  }

  /**
   Resume equals full replay: from any graph, replaying a prefix, saving a
   checkpoint anchored at its last event, restoring it, and replaying what the
   anchor says is left gives the graph that replaying the whole log gives.
   */
  lemma {:induction false} ResumeEqualsFullReplay(g: Graph, es: seq<Entry>, k: nat, cp: Checkpoint, sessionTurns: nat)
    requires Inv(g) && UniqueIds(es) && 0 < k <= |es|
    requires IsCheckpoint(cp, ReplayAll(g, es[..k]), es[k - 1].eventId, sessionTurns)
    ensures StartAfter(es, cp.lastEventId) == Some(k)
    ensures ReplayAll(Restored(cp), es[k..]) == ReplayAll(g, es)
    ensures Inv(ReplayAll(g, es))
  {
    hide ReplayAll, Restored;
    ReplayAllKeepsInv(g, es[..k]);
    CheckpointRoundTrip(cp, ReplayAll(g, es[..k]), es[k - 1].eventId, sessionTurns);
    ReplayConcat(g, es[..k], es[k..]);
    assert es[..k] + es[k..] == es;
    ReplayAllKeepsInv(g, es);
  }

  /**
   `restoreWorkingMemory`: restore, then replay what came after the anchor. A
   missing checkpoint or a missing anchor leaves the new session's graph empty.
   */
  method RestoreWorkingMemory(graph: StateGraph, saved: Option<Checkpoint>, es: seq<Entry>)
    returns (turns: nat, discarded: bool)
    requires graph.Value() == EMPTY_GRAPH
    modifies graph
    ensures discarded <==> saved.Some? && StartAfter(es, saved.value.lastEventId) == None
    ensures saved == None || discarded ==> graph.Value() == EMPTY_GRAPH && turns == 0
    ensures saved.Some? && !discarded ==>
              && turns == saved.value.sessionTurnCount
              && graph.Value()
                 == ReplayAll(Restored(saved.value), es[StartAfter(es, saved.value.lastEventId).value..])
  {
    turns, discarded := 0, false;
    if saved == None {
      return;
    }
    var start := FindReplayStartIndex(es, saved.value.lastEventId);
    if start == None {
      discarded := true;
      return;
    }
    RestoreFromCheckpoint(graph, saved.value);
    turns := saved.value.sessionTurnCount;
    var _ := ReplayStateGraphFromEvents(graph, es, start.value);
  }
}

/**
 A working memory over whole sessions: tools and hydration, the end of each turn,
 checkpoints written, and resumes that restore one and replay logged actions.
 */
module WorkingMemory {
  import opened Options
  import opened StateGraph
  import opened StateReplay
  import opened TierAgeing

  datatype Memory = Memory(graph: Graph, saved: Option<Checkpoint>)

  datatype Act =
    | Live(op: Op)
    | EndTurn(lim: Limits, now: int)
    | Save(cp: Checkpoint)
    | Resume(suffix: seq<Entry>)

  const NEW_MEMORY := Memory(EMPTY_GRAPH, None)

  /** A checkpoint that is saved is one of the graph as it is. */
  ghost predicate Enabled(m: Memory, a: Act) {
    match a
    case Live(op) => Allowed(m.graph, op)
    case EndTurn(_, _) => true
    case Save(cp) => IsCheckpoint(cp, m.graph, cp.lastEventId, cp.sessionTurnCount)
    case Resume(_) => true
  }

  /** A resume without a checkpoint starts with an empty graph and replays nothing. */
  function Step(m: Memory, a: Act): Memory {
    match a
    case Live(op) => m.(graph := Do(m.graph, op))
    case EndTurn(lim, now) => m.(graph := Sweep(m.graph.(turn := m.graph.turn + 1), lim, now))
    case Save(cp) => m.(saved := Some(cp))
    case Resume(suffix) =>
      m.(graph := if m.saved.Some? then ReplayAll(Restored(m.saved.value), suffix) else EMPTY_GRAPH)
  }

  ghost predicate Runs(m: Memory, acts: seq<Act>, m': Memory)
    decreases |acts|
  {
    if acts == [] then m' == m else Enabled(m, acts[0]) && Runs(Step(m, acts[0]), acts[1..], m')
  }

  ghost predicate MemoryInv(m: Memory) {
    Inv(m.graph) && (m.saved.Some? ==> Inv(Restored(m.saved.value)))
  }

  lemma {:induction false} EndTurnKeepsInv(g: Graph, lim: Limits, now: int)
    requires Inv(g)
    ensures Inv(Sweep(g.(turn := g.turn + 1), lim, now))
  {
    var u := g.(turn := g.turn + 1);
    var h := Retier(u, ActiveTiers(u, lim), now);
    assert Inv(h);
  }

  lemma {:induction false} SaveKeepsInv(m: Memory, cp: Checkpoint)
    requires MemoryInv(m) && Enabled(m, Save(cp))
    ensures MemoryInv(Step(m, Save(cp)))
  {
    assert WellKeyed(m.graph);
    hide Restored, WellKeyed, OneFocus, Lists;
    CheckpointRoundTrip(cp, m.graph, cp.lastEventId, cp.sessionTurnCount);
  }

  lemma {:induction false} ResumeKeepsInv(m: Memory, suffix: seq<Entry>)
    requires MemoryInv(m)
    ensures MemoryInv(Step(m, Resume(suffix)))
  {
    assert Inv(EMPTY_GRAPH);
    hide Inv, ReplayAll, Restored;
    if m.saved.Some? {
      ReplayAllKeepsInv(Restored(m.saved.value), suffix);
    }
  }

  lemma {:induction false} StepKeepsInv(m: Memory, a: Act)
    requires MemoryInv(m) && Enabled(m, a)
    ensures MemoryInv(Step(m, a))
  {
    hide Inv, Do, Sweep, Restored;
    match a
    case Live(op) => DoKeepsInv(m.graph, op);
    case EndTurn(lim, now) => EndTurnKeepsInv(m.graph, lim, now);
    case Save(cp) => SaveKeepsInv(m, cp);
    case Resume(suffix) => ResumeKeepsInv(m, suffix);
  }

  lemma {:induction false} RunKeepsInv(m: Memory, acts: seq<Act>, m': Memory)
    requires MemoryInv(m) && Runs(m, acts, m')
    ensures MemoryInv(m')
    decreases |acts|
  {
    if acts != [] {
      StepKeepsInv(m, acts[0]);
      RunKeepsInv(Step(m, acts[0]), acts[1..], m');
    }
  }

  /**
   In every graph a session can reach, each object is stored under its own id and
   at most one object has the focus.
   */
  lemma {:induction false} EveryGraphIsSound(acts: seq<Act>, m: Memory)
    requires Runs(NEW_MEMORY, acts, m)
    ensures WellKeyed(m.graph) && OneFocus(m.graph)
  {
    RunKeepsInv(NEW_MEMORY, acts, m);
  }
}

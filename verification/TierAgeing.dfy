/**
 The sweep that demotes idle working-memory objects at the end of a turn, and
 what it does to an object over a whole session.
 */
module TierAgeing {
  import opened StateGraph

  /** Turns of idleness before an active object turns soft, and a soft one hard. */
  datatype Limits = Limits(soft: nat, hard: nat)

  function Idle(g: Graph, id: Id): int {
    g.turn - TouchedTurn(g, id)
  }

  /** What the loop over the active objects does to one of them. */
  function AfterActive(g: Graph, lim: Limits, id: Id): Tier
    requires id in g.objects
  {
    var o := g.objects[id];
    if !Visible(o, Active) then o.tier
    else if Idle(g, id) >= lim.hard then Hard
    else if Idle(g, id) >= lim.soft then Soft
    else Active
  }

  function AfterPeripheral(g: Graph, lim: Limits, id: Id): Tier
    requires id in g.objects
  {
    var o := g.objects[id];
    if Visible(o, Soft) && Idle(g, id) >= lim.hard then Hard else o.tier
  }

  /** Every object whose tier changes is stamped with the current turn. */
  function Retier(g: Graph, tiers: map<Id, Tier>, now: int): Graph {
    Graph(
      map k | k in g.objects ::
          if Changes(g, tiers, k) then g.objects[k].(tier := tiers[k], lastTouched := now) else g.objects[k],
      map k | k in g.touched.Keys + g.objects.Keys && (k in g.touched || Changes(g, tiers, k)) ::
          if Changes(g, tiers, k) then g.turn else g.touched[k],
      g.turn)
  }

  predicate Changes(g: Graph, tiers: map<Id, Tier>, k: Id) {
    k in g.objects && k in tiers && tiers[k] != g.objects[k].tier
  }

  function ActiveTiers(g: Graph, lim: Limits): map<Id, Tier> {
    map k | k in g.objects :: AfterActive(g, lim, k)
  }

  function PeripheralTiers(g: Graph, lim: Limits): map<Id, Tier> {
    map k | k in g.objects :: AfterPeripheral(g, lim, k)
  }

  /** The whole sweep: the active objects first, then the soft ones. */
  function Sweep(g: Graph, lim: Limits, now: int): Graph {
    var h := Retier(g, ActiveTiers(g, lim), now);
    Retier(h, PeripheralTiers(h, lim), now)
  }

  /** The tier and the touched turn of one object after a sweep. */
  lemma {:induction false} SweepOne(g: Graph, lim: Limits, now: int, id: Id)
    requires id in g.objects && 0 < lim.soft && 0 < lim.hard
    ensures var g' := Sweep(g, lim, now);
            var o := g.objects[id];
            var tier := if o.retracted then o.tier
                        else if (o.tier == Active || o.tier == Soft) && Idle(g, id) >= lim.hard then Hard
                        else if o.tier == Active && Idle(g, id) >= lim.soft then Soft
                        else o.tier;
            && g'.turn == g.turn && g'.objects.Keys == g.objects.Keys
            && g'.objects[id].tier == tier
            && g'.objects[id].retracted == o.retracted
            && TouchedTurn(g', id) == if tier != o.tier then g.turn else TouchedTurn(g, id)
  {
    var h := Retier(g, ActiveTiers(g, lim), now);
    assert h.turn == g.turn && h.objects.Keys == g.objects.Keys;
    assert TouchedTurn(h, id) == if h.objects[id].tier != g.objects[id].tier then g.turn else TouchedTurn(g, id);
    var g' := Retier(h, PeripheralTiers(h, lim), now);
    assert g' == Sweep(g, lim, now);
  }

  function Rank(t: Tier): nat {
    match t case Active => 0 case Soft => 1 case Hard => 2 case NoTier => 3
  }

  /**
   A sweep never promotes, and after it no visible active object has been idle
   for `soft` turns and no visible soft object for `hard` turns.
   */
  lemma {:induction false} NoIdleObjectIsLeft(g: Graph, lim: Limits, now: int, id: Id)
    requires id in g.objects && 0 < lim.soft && 0 < lim.hard
    ensures id in Sweep(g, lim, now).objects
    ensures var g' := Sweep(g, lim, now);
            && Rank(g'.objects[id].tier) >= Rank(g.objects[id].tier)
            && (Visible(g'.objects[id], Active) ==> Idle(g', id) < lim.soft && Idle(g', id) < lim.hard)
            && (Visible(g'.objects[id], Soft) ==> Idle(g', id) < lim.hard)
  {
    SweepOne(g, lim, now, id);
  }

  // ------------------------------------------------------------------
  // The sweep as the program runs it
  // ------------------------------------------------------------------

  predicate At(o: Obj, active: bool) {
    if active then Visible(o, Active) else Peripheral(o)
  }

  method IdsAt(graph: StateGraph, active: bool) returns (ids: set<Id>)
    ensures ids == set k | k in graph.objects && At(graph.objects[k], active)
  {
    ids := set k | k in graph.objects && At(graph.objects[k], active);
  }

  /** Visit a snapshot of ids and move each object to the tier it should have. */
  method RetierEach(graph: StateGraph, ids: set<Id>, tiers: map<Id, Tier>, now: int)
    requires ids <= graph.objects.Keys && tiers.Keys == graph.objects.Keys
    requires forall k :: k in graph.objects && k !in ids ==> tiers[k] == graph.objects[k].tier
    modifies graph
    ensures graph.Value() == Retier(old(graph.Value()), tiers, now)
  {
    ghost var g := graph.Value();
    var rest := ids;
    RetierNone(g, now);
    assert TiersOn(g, tiers, rest) == TiersOn(g, tiers, ids);
    RetierUntouched(g, tiers, ids, now);
    while rest != {}
      invariant rest <= ids
      invariant graph.Value() == Retier(g, TiersOn(g, tiers, rest), now)
      decreases rest
    {
      var k :| k in rest;
      RetierStep(g, tiers, rest, k, now);
      if tiers[k] != graph.objects[k].tier {
        var _ := graph.MoveToTier(k, tiers[k], now);
      }
      rest := rest - {k};
    }
    assert TiersOn(g, tiers, {}) == tiers;
  }

  /** The tiers with those of `rest` left as they are. */
  function TiersOn(g: Graph, tiers: map<Id, Tier>, rest: set<Id>): map<Id, Tier> {
    map k | k in tiers && k !in rest :: tiers[k]
  }

  lemma {:induction false} RetierNone(g: Graph, now: int)
    ensures Retier(g, map[], now) == g
  {
    assert Retier(g, map[], now).objects == g.objects;
    assert Retier(g, map[], now).touched == g.touched;
  }

  lemma {:induction false} RetierUntouched(g: Graph, tiers: map<Id, Tier>, ids: set<Id>, now: int)
    requires forall k :: k in g.objects && k in tiers && k !in ids ==> tiers[k] == g.objects[k].tier
    ensures Retier(g, TiersOn(g, tiers, ids), now) == g
  {
    var t := TiersOn(g, tiers, ids);
    assert forall k :: !Changes(g, t, k);
    assert Retier(g, t, now).objects == g.objects;
    assert Retier(g, t, now).touched == g.touched;
  }

  lemma {:induction false} RetierStep(g: Graph, tiers: map<Id, Tier>, rest: set<Id>, k: Id, now: int)
    requires k in rest && k in g.objects && k in tiers
    ensures var h := Retier(g, TiersOn(g, tiers, rest), now);
            var h' := Retier(g, TiersOn(g, tiers, rest - {k}), now);
            && h.objects[k] == g.objects[k]
            && h' == if tiers[k] != g.objects[k].tier then Do(h, SetTier(k, tiers[k], now)) else h
  {
    var t, t' := TiersOn(g, tiers, rest), TiersOn(g, tiers, rest - {k});
    var h, h' := Retier(g, t, now), Retier(g, t', now);
    assert !Changes(g, t, k);
    assert forall j :: j != k ==> Changes(g, t, j) == Changes(g, t', j);
    assert Changes(g, t', k) <==> tiers[k] != g.objects[k].tier;
    if tiers[k] != g.objects[k].tier {
      assert h'.objects == h.objects[k := h.objects[k].(tier := tiers[k], lastTouched := now)];
      assert h'.touched == h.touched[k := g.turn];
    } else {
      assert h'.objects == h.objects && h'.touched == h.touched;
    }
  }

  /** `applyTierManagement`: read the limits, sweep the active objects, then the soft ones. */
  method ApplyTierManagement(graph: StateGraph, lim: Limits, now: int)
    modifies graph
    ensures graph.Value() == Sweep(old(graph.Value()), lim, now)
  {
    var active := IdsAt(graph, true);
    RetierEach(graph, active, ActiveTiers(graph.Value(), lim), now);
    var peripheral := IdsAt(graph, false);
    RetierEach(graph, peripheral, PeripheralTiers(graph.Value(), lim), now);
  }

  // ------------------------------------------------------------------
  // Whole sessions
  // ------------------------------------------------------------------

  predicate Touches(op: Op, id: Id) {
    match op
    case Clear => true
    case Create(i, _, _, _) => i == id
    case Update(i, _, _) => i == id
    case SetTier(i, _, _) => i == id
    case Retract(i, _) => i == id
    case SetFocus(i, _) => i == id
    case Hydrate(matched, _) => id in matched
  }

  function DoAll(g: Graph, ops: seq<Op>): Graph
    decreases |ops|
  {
    if ops == [] then g else DoAll(Do(g, ops[0]), ops[1..])
  }

  /** One turn: whatever its operations are, then the turn counter, then one sweep. */
  function RunTurn(g: Graph, ops: seq<Op>, lim: Limits, now: int): Graph {
    var h := DoAll(g, ops);
    Sweep(h.(turn := h.turn + 1), lim, now)
  }

  function RunTurns(g: Graph, turns: seq<seq<Op>>, lim: Limits, now: int): Graph
    decreases |turns|
  {
    if turns == [] then g else RunTurns(RunTurn(g, turns[0], lim, now), turns[1..], lim, now)
  }

  /** The tier, at turn `t`, of an object last touched at turn `c` and left alone since. */
  function AgedTier(c: nat, t: nat, lim: Limits): Tier {
    if t < c + lim.soft then Active else if t < c + lim.soft + lim.hard then Soft else Hard
  }

  /** Demotion touches: the stamp is that of the last tier change. */
  function AgedTouch(c: nat, t: nat, lim: Limits): nat {
    if t < c + lim.soft then c else if t < c + lim.soft + lim.hard then c + lim.soft else c + lim.soft + lim.hard
  }

  ghost predicate Aged(g: Graph, id: Id, c: nat, lim: Limits) {
    && id in g.objects && !g.objects[id].retracted
    && c <= g.turn
    && g.objects[id].tier == AgedTier(c, g.turn, lim)
    && TouchedTurn(g, id) == AgedTouch(c, g.turn, lim)
  }

  lemma {:induction false} OthersDoNotTouch(g: Graph, ops: seq<Op>, id: Id)
    requires id in g.objects && forall i :: 0 <= i < |ops| ==> !Touches(ops[i], id)
    ensures var h := DoAll(g, ops);
            && h.turn == g.turn && id in h.objects
            && h.objects[id].tier == g.objects[id].tier && h.objects[id].retracted == g.objects[id].retracted
            && TouchedTurn(h, id) == TouchedTurn(g, id)
    decreases |ops|
  {
    if ops != [] {
      var h := Do(g, ops[0]);
      assert h.turn == g.turn && id in h.objects && h.objects[id].tier == g.objects[id].tier
             && h.objects[id].retracted == g.objects[id].retracted && TouchedTurn(h, id) == TouchedTurn(g, id);
      OthersDoNotTouch(h, ops[1..], id);
    }
  }

  lemma {:induction false} TurnAges(g: Graph, ops: seq<Op>, lim: Limits, now: int, id: Id, c: nat)
    requires 0 < lim.soft < lim.hard && Aged(g, id, c, lim)
    requires forall i :: 0 <= i < |ops| ==> !Touches(ops[i], id)
    ensures Aged(RunTurn(g, ops, lim, now), id, c, lim)
    ensures RunTurn(g, ops, lim, now).turn == g.turn + 1
  {
    hide Sweep, DoAll;
    OthersDoNotTouch(g, ops, id);
    var h := DoAll(g, ops);
    SweepOne(h.(turn := h.turn + 1), lim, now, id);
  }

  /**
   Exact ageing. With one sweep per turn, a visible object that nothing touches
   after turn `c` is active until turn c + soft, soft from there until turn
   c + soft + hard, and hard from then on, whatever happens to other objects.
   */
  lemma {:induction false} ExactAgeing(g: Graph, turns: seq<seq<Op>>, lim: Limits, now: int, id: Id, c: nat)
    requires 0 < lim.soft < lim.hard && Aged(g, id, c, lim)
    requires forall i, j :: 0 <= i < |turns| && 0 <= j < |turns[i]| ==> !Touches(turns[i][j], id)
    ensures var g' := RunTurns(g, turns, lim, now);
            && g'.turn == g.turn + |turns|
            && id in g'.objects
            && g'.objects[id].tier == AgedTier(c, g.turn + |turns|, lim)
            && Aged(g', id, c, lim)
    decreases |turns|
  {
    if turns != [] {
      TurnAges(g, turns[0], lim, now, id, c);
      ExactAgeing(RunTurn(g, turns[0], lim, now), turns[1..], lim, now, id, c);
    }
  }

  /** Every operation that touches an object and leaves it active and visible starts its age at zero. */
  lemma {:induction false} TouchingStartsTheClock(g: Graph, op: Op, lim: Limits, id: Id)
    requires 0 < lim.soft && Touches(op, id) && id in Do(g, op).objects
    requires Visible(Do(g, op).objects[id], Active)
    requires op.Hydrate? ==> Woken(g, op.matched, id)
    ensures Aged(Do(g, op), id, g.turn, lim)
  {
  }
}

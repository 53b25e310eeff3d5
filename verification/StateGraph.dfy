/**
 Working memory: objects with a tier, a focus and the turn they were last
 touched, changed by tools, by the replay of logged actions, and by a sweep at
 the end of every turn. Ids are codes that sort by age.
 */
module StateGraph {
  import opened Options

  type Id = nat
  type Payload = map<string, string>

  datatype Kind = Task | Decision | Constraint | Note
  /** `NoTier` is what replaying a tier change that names no tier leaves. */
  datatype Tier = Active | Soft | Hard | NoTier

  datatype Obj = Obj(
    id: Id,
    kind: Kind,
    tier: Tier,
    payload: Payload,
    created: int,
    updated: int,
    lastTouched: int,
    focused: bool,
    retracted: bool)

  datatype Graph = Graph(objects: map<Id, Obj>, touched: map<Id, nat>, turn: nat)

  const EMPTY_GRAPH := Graph(map[], map[], 0)

  function TouchedTurn(g: Graph, id: Id): nat {
    if id in g.touched then g.touched[id] else 0
  }

  predicate Visible(o: Obj, tier: Tier) {
    o.tier == tier && !o.retracted
  }

  predicate Peripheral(o: Obj) {
    (o.tier == Soft || o.tier == Hard) && !o.retracted
  }

  // ------------------------------------------------------------------
  // Live operations
  // ------------------------------------------------------------------

  datatype Op =
    | Clear
    | Create(id: Id, kind: Kind, payload: Payload, now: int)
    | Update(id: Id, payload: Payload, now: int)
    | SetTier(id: Id, tier: Tier, now: int)
    | Retract(id: Id, now: int)
    | SetFocus(id: Id, now: int)
    | Hydrate(matched: set<Id>, now: int)  // the peripheral objects a query matches

  function Put(g: Graph, o: Obj): Graph {
    g.(objects := g.objects[o.id := o], touched := g.touched[o.id := g.turn])
  }

  function FocusOn(objects: map<Id, Obj>, id: Id): map<Id, Obj> {
    map k | k in objects :: objects[k].(focused := objects[k].id == id)
  }

  function Hydrated(g: Graph, matched: set<Id>, now: int): Graph {
    Graph(
      map k | k in g.objects :: if Woken(g, matched, k) then g.objects[k].(tier := Active, lastTouched := now)
                                else g.objects[k],
      map k | k in g.touched.Keys + g.objects.Keys
              && (k in g.touched || Woken(g, matched, k)) ::
          if Woken(g, matched, k) then g.turn else g.touched[k],
      g.turn)
  }

  predicate Woken(g: Graph, matched: set<Id>, k: Id) {
    k in g.objects && k in matched && Peripheral(g.objects[k])
  }

  lemma {:induction false} HydrateNone(g: Graph, matched: set<Id>, now: int)
    requires matched !! g.objects.Keys
    ensures Hydrated(g, matched, now) == g
  {
    assert Hydrated(g, matched, now).objects == g.objects;
    assert Hydrated(g, matched, now).touched == g.touched;
  }

  /** One more object of the loop: `rest` are those not yet visited. */
  lemma {:induction false} HydrateStep(g: Graph, matched: set<Id>, rest: set<Id>, k: Id, now: int)
    requires k in rest && k in g.objects
    ensures var h := Hydrated(g, matched - rest, now);
            var h' := Hydrated(g, matched - (rest - {k}), now);
            && h.objects[k] == g.objects[k]
            && h' == if Woken(g, matched, k)
                     then Graph(h.objects[k := h.objects[k].(tier := Active, lastTouched := now)],
                                h.touched[k := g.turn], g.turn)
                     else h
  {
    var h := Hydrated(g, matched - rest, now);
    var h' := Hydrated(g, matched - (rest - {k}), now);
    assert forall j :: j != k ==> Woken(g, matched - rest, j) == Woken(g, matched - (rest - {k}), j);
    if Woken(g, matched, k) {
      assert h'.objects == h.objects[k := h.objects[k].(tier := Active, lastTouched := now)];
      assert h'.touched == h.touched[k := g.turn];
    } else {
      assert h'.objects == h.objects && h'.touched == h.touched;
    }
  }

  function Do(g: Graph, op: Op): Graph {
    match op
    case Clear => EMPTY_GRAPH
    case Create(id, kind, payload, now) => Put(g, Obj(id, kind, Active, payload, now, now, now, false, false))
    case Update(id, payload, now) =>
      if id !in g.objects then g
      else
        var o := g.objects[id];
        g.(objects := g.objects[id := o.(payload := o.payload + payload, updated := now, lastTouched := now)],
           touched := g.touched[id := g.turn])
    case SetTier(id, tier, now) =>
      if id !in g.objects then g
      else g.(objects := g.objects[id := g.objects[id].(tier := tier, lastTouched := now)],
              touched := g.touched[id := g.turn])
    case Retract(id, now) =>
      if id !in g.objects then g
      else g.(objects := g.objects[id := g.objects[id].(retracted := true, updated := now, lastTouched := now)],
              touched := g.touched[id := g.turn])
    case SetFocus(id, now) =>
      if id !in g.objects then g
      else
        var focused := FocusOn(g.objects, id);
        g.(objects := focused[id := focused[id].(lastTouched := now)], touched := g.touched[id := g.turn])
    case Hydrate(matched, now) => Hydrated(g, matched, now)
  }

  // ------------------------------------------------------------------
  // Replay of logged actions
  // ------------------------------------------------------------------

  /** The payload of a context_action event. */
  datatype LoggedAction = LoggedAction(
    action: string,
    id: Id,
    kind: Kind,
    tier: Option<Tier>,
    statePayload: Option<Payload>,
    created: int,
    updated: int,
    lastTouched: int)

  function ReplayAction(g: Graph, p: LoggedAction): Graph {
    var known := p.id in g.objects;
    if p.action == "create" then
      g.(objects := g.objects[p.id := Obj(
           p.id, p.kind, match p.tier case Some(t) => t case None => Active,
           match p.statePayload case Some(s) => s case None => map[],
           p.created, p.updated, p.lastTouched, false, false)])
    else if !known then g
    else
      var o := g.objects[p.id];
      if p.action == "update" then
        (match p.statePayload
         case None => g
         case Some(s) =>
           g.(objects := g.objects[p.id := o.(payload := o.payload + s,
                                              updated := p.updated, lastTouched := p.lastTouched)]))
      else if p.action == "setTier" then
        var tier := match p.tier case Some(t) => t case None => NoTier;
        g.(objects := g.objects[p.id := o.(tier := tier, lastTouched := p.lastTouched)])
      else if p.action == "setFocus" then
        var focused := FocusOn(g.objects, p.id);
        g.(objects := focused[p.id := focused[p.id].(lastTouched := p.lastTouched)])
      else if p.action == "retract" then
        g.(objects := g.objects[p.id := o.(retracted := true, updated := p.updated)])
      else g
  }

  // ------------------------------------------------------------------
  // What every graph keeps
  // ------------------------------------------------------------------

  ghost predicate WellKeyed(g: Graph) {
    forall k :: k in g.objects ==> g.objects[k].id == k
  }

  ghost predicate OneFocus(g: Graph) {
    forall j, k :: j in g.objects && k in g.objects && g.objects[j].focused && g.objects[k].focused ==> j == k
  }

  ghost predicate Inv(g: Graph) {
    WellKeyed(g) && OneFocus(g)
  }

  /** A tool or a hydration gives a new object a new id. */
  predicate Allowed(g: Graph, op: Op) {
    op.Create? ==> op.id !in g.objects
  }

  lemma {:induction false} DoKeepsInv(g: Graph, op: Op)
    requires Inv(g) && Allowed(g, op)
    ensures Inv(Do(g, op))
  {
  }

  lemma {:induction false} ReplayKeepsInv(g: Graph, p: LoggedAction)
    requires Inv(g)
    ensures Inv(ReplayAction(g, p))
  {
  }

  // ------------------------------------------------------------------
  // The object
  // ------------------------------------------------------------------

  class StateGraph {
    var objects: map<Id, Obj>
    var touchedTurn: map<Id, nat>
    var turnCount: nat

    function Value(): Graph
      reads this
    {
      Graph(objects, touchedTurn, turnCount)
    }

    constructor ()
      ensures Value() == EMPTY_GRAPH
    {
      objects, touchedTurn, turnCount := map[], map[], 0;
    }

    method ClearAll()
      modifies this
      ensures Value() == EMPTY_GRAPH
    {
      objects, touchedTurn, turnCount := map[], map[], 0;
    }

    method CreateObject(id: Id, kind: Kind, payload: Payload, now: int) returns (o: Obj)
      requires id !in objects
      modifies this
      ensures Value() == Do(old(Value()), Create(id, kind, payload, now))
      ensures id in objects && o == objects[id]
    {
      o := Obj(id, kind, Active, payload, now, now, now, false, false);
      objects := objects[id := o];
      touchedTurn := touchedTurn[id := turnCount];
    }

    method UpdateObject(id: Id, patch: Payload, now: int) returns (found: bool)
      modifies this
      ensures Value() == Do(old(Value()), Update(id, patch, now))
      ensures found <==> id in old(objects)
    {
      if id !in objects {
        return false;
      }
      var o := objects[id];
      objects := objects[id := o.(payload := o.payload + patch, updated := now, lastTouched := now)];
      touchedTurn := touchedTurn[id := turnCount];
      return true;
    }

    method MoveToTier(id: Id, tier: Tier, now: int) returns (found: bool)
      modifies this
      ensures Value() == Do(old(Value()), SetTier(id, tier, now))
      ensures found <==> id in old(objects)
    {
      if id !in objects {
        return false;
      }
      objects := objects[id := objects[id].(tier := tier, lastTouched := now)];
      touchedTurn := touchedTurn[id := turnCount];
      return true;
    }

    method RetractObject(id: Id, now: int) returns (found: bool)
      modifies this
      ensures Value() == Do(old(Value()), Retract(id, now))
      ensures found <==> id in old(objects)
    {
      if id !in objects {
        return false;
      }
      objects := objects[id := objects[id].(retracted := true, updated := now, lastTouched := now)];
      touchedTurn := touchedTurn[id := turnCount];
      return true;
    }

    /** Visit every object and set its flag by comparing ids. */
    method ClearOtherFocus(id: Id)
      modifies this`objects
      ensures objects == FocusOn(old(objects), id)
    {
      var before := objects;
      var rest := objects.Keys;
      while rest != {}
        invariant rest <= before.Keys && objects.Keys == before.Keys
        invariant forall k :: k in rest ==> objects[k] == before[k]
        invariant forall k :: k in before && k !in rest ==> objects[k] == before[k].(focused := before[k].id == id)
        decreases rest
      {
        var k :| k in rest;
        objects := objects[k := objects[k].(focused := objects[k].id == id)];
        rest := rest - {k};
      }
    }

    method Focus(id: Id, now: int) returns (found: bool)
      modifies this
      ensures Value() == Do(old(Value()), SetFocus(id, now))
      ensures found <==> id in old(objects)
    {
      if id !in objects {
        return false;
      }
      ClearOtherFocus(id);
      objects := objects[id := objects[id].(lastTouched := now)];
      touchedTurn := touchedTurn[id := turnCount];
      return true;
    }

    /** Promote the peripheral objects among the matched ones. */
    method AutoHydrate(matched: set<Id>, now: int)
      modifies this
      ensures Value() == Do(old(Value()), Hydrate(matched, now))
    {
      ghost var g := Value();
      var rest := objects.Keys;
      HydrateNone(g, matched - rest, now);
      while rest != {}
        invariant rest <= g.objects.Keys
        invariant Value() == Hydrated(g, matched - rest, now)
        decreases rest
      {
        var k :| k in rest;
        HydrateStep(g, matched, rest, k, now);
        if k in matched && Peripheral(objects[k]) {
          objects := objects[k := objects[k].(tier := Active, lastTouched := now)];
          touchedTurn := touchedTurn[k := turnCount];
        }
        rest := rest - {k};
      }
      assert matched - {} == matched;
    }

    method IncrementTurn()
      modifies this
      ensures Value() == old(Value()).(turn := old(turnCount) + 1)
    {
      turnCount := turnCount + 1;
    }

    /** `replayAction`: one logged action, without stamping the touched turn. */
    method Replay(p: LoggedAction)
      modifies this
      ensures Value() == ReplayAction(old(Value()), p)
    {
      if p.action == "create" {
        objects := objects[p.id := Obj(
                             p.id, p.kind, if p.tier.Some? then p.tier.value else Active,
                             if p.statePayload.Some? then p.statePayload.value else map[],
                             p.created, p.updated, p.lastTouched, false, false)];
      } else if p.id in objects {
        var o := objects[p.id];
        if p.action == "update" {
          if p.statePayload.Some? {
            objects := objects[p.id := o.(payload := o.payload + p.statePayload.value,
                                          updated := p.updated, lastTouched := p.lastTouched)];
          }
        } else if p.action == "setTier" {
          var tier := if p.tier.Some? then p.tier.value else NoTier;
          objects := objects[p.id := o.(tier := tier, lastTouched := p.lastTouched)];
        } else if p.action == "setFocus" {
          ClearOtherFocus(p.id);
          objects := objects[p.id := objects[p.id].(lastTouched := p.lastTouched)];
        } else if p.action == "retract" {
          objects := objects[p.id := o.(retracted := true, updated := p.updated)];
        }
      }
    }
  }
}

/**
 Sharing one refresh between the callers of a process. Everyone who asks while
 a refresh is under way waits on it through a gate; the gate's own signal aborts
 the wait for the refresh lock once the last of them has stopped waiting.
 */
module RefreshGate {
  import opened Options

  type Caller = nat

  /** What a gate knows: a count and whether its controller was aborted. */
  datatype Gate = Gate(active: int, aborted: bool)

  const NEW_GATE := Gate(0, false)

  function Entered(g: Gate): Gate {
    g.(active := g.active + 1)
  }

  function Left(g: Gate): Gate {
    Gate(g.active - 1, g.aborted || g.active - 1 <= 0)
  }

  /** The gate object. `inside` holds the callers whose leave closure has not run. */
  class RefreshWaitGate {
    var active: int
    var aborted: bool
    var inside: set<Caller>

    ghost predicate Valid()
      reads this
    {
      active == |inside|
    }

    function State(): Gate
      reads this
    {
      Gate(active, aborted)
    }

    constructor ()
      ensures Valid() && State() == NEW_GATE && inside == {}
    {
      active, aborted, inside := 0, false, {};
    }

    /** A caller whose own signal is already aborted enters and leaves at once. */
    method Enter(c: Caller, signalAborted: bool)
      requires Valid() && c !in inside
      modifies this
      ensures Valid()
      ensures inside == if signalAborted then old(inside) else old(inside) + {c}
      ensures State() == if signalAborted then Left(Entered(old(State()))) else Entered(old(State()))
      ensures aborted == (old(aborted) || inside == {})
    {
      active := active + 1;
      inside := inside + {c};
      if signalAborted {
        Leave(c);
      }
    }

    /** The leave closure, run by the caller's abort listener, by its `finally`, or by both. */
    method Leave(c: Caller)
      requires Valid()
      modifies this
      ensures Valid()
      ensures inside == old(inside) - {c}
      ensures State() == if c in old(inside) then Left(old(State())) else old(State())
      ensures aborted == (old(aborted) || (c in old(inside) && inside == {}))
    {
      if c !in inside {
        return;
      }
      inside := inside - {c};
      active := active - 1;
      if active <= 0 && !aborted {
        aborted := true;
      }
    }
  }

  // ------------------------------------------------------------------
  // The map of refreshes under way, for one provider
  // ------------------------------------------------------------------

  /** Every gate ever made, the one registered now, and where each caller waits. */
  datatype Flight = Flight(
    gates: seq<Gate>,
    current: Option<nat>,
    settled: set<nat>,
    waiting: map<Caller, nat>,
    left: set<Caller>)

  const NO_FLIGHT := Flight([], None, {}, map[], {})

  datatype Event =
    | Resolve(c: Caller)         // a caller needs a refresh
    | Leave(c: Caller)           // its signal fires, or its wait ends
    | Settle(gate: nat)          // the shared promise settles
    | Unregister(gate: nat)      // the `finally` on it runs, some microtasks later

  predicate Enabled(f: Flight, e: Event) {
    match e
    case Resolve(c) => c !in f.waiting && c !in f.left
    case Leave(_) => true
    case Settle(g) => g < |f.gates| && g !in f.settled
    case Unregister(g) => g in f.settled
  }

  /** The registered gate is joined unless its controller has been aborted. */
  predicate Joins(f: Flight) {
    f.current.Some? && f.current.value < |f.gates| && !f.gates[f.current.value].aborted
  }

  function Step(f: Flight, e: Event): Flight {
    match e
    case Resolve(c) =>
      if Joins(f) then
        var g := f.current.value;
        f.(gates := f.gates[g := Entered(f.gates[g])], waiting := f.waiting[c := g])
      else
        var g := |f.gates|;
        f.(gates := f.gates + [Entered(NEW_GATE)], current := Some(g), waiting := f.waiting[c := g])
    case Leave(c) =>
      if c in f.waiting && f.waiting[c] < |f.gates| then
        var g := f.waiting[c];
        f.(gates := f.gates[g := Left(f.gates[g])], waiting := f.waiting - {c}, left := f.left + {c})
      else f
    case Settle(g) => f.(settled := f.settled + {g})
    case Unregister(g) => f.(current := if f.current == Some(g) then None else f.current)
  }

  ghost predicate Runs(f: Flight, es: seq<Event>, f': Flight)
    decreases |es|
  {
    if es == [] then f' == f else Enabled(f, es[0]) && Runs(Step(f, es[0]), es[1..], f')
  }

  /** The callers inside a gate: they entered it and have not left. */
  function Inside(f: Flight, g: nat): set<Caller> {
    set c | c in f.waiting && f.waiting[c] == g
  }

  /** A refresh that has not settled and that somebody waits for. */
  ghost predicate Awaited(f: Flight, g: nat) {
    g < |f.gates| && g !in f.settled && Inside(f, g) != {}
  }

  ghost predicate Inv(f: Flight) {
    && (forall c :: c in f.waiting ==> f.waiting[c] < |f.gates|)
    && (forall g :: 0 <= g < |f.gates| ==> GateInv(f, g))
    && (forall g :: g in f.settled ==> g < |f.gates|)
    && (f.current.Some? ==> f.current.value < |f.gates|)
    // The registered refresh is the only one that can be both pending and still awaited.
    && (forall g :: 0 <= g < |f.gates| && g !in f.settled && f.current != Some(g) ==> f.gates[g].aborted)
  }

  ghost predicate GateInv(f: Flight, g: nat)
    requires g < |f.gates|
  {
    && f.gates[g].active == |Inside(f, g)|
    && (f.gates[g].aborted <==> Inside(f, g) == {})
  }

  lemma {:induction false} ResolveKeepsGate(f: Flight, c: Caller, g: nat)
    requires Inv(f) && Enabled(f, Resolve(c)) && g < |Step(f, Resolve(c)).gates|
    ensures GateInv(Step(f, Resolve(c)), g)
  {
    var f' := Step(f, Resolve(c));
    assert g < |f.gates| ==> GateInv(f, g);
    if f'.waiting[c] == g {
      assert Inside(f', g) == Inside(f, g) + {c};
      assert g == |f.gates| ==> Inside(f, g) == {};
    } else {
      assert Inside(f', g) == Inside(f, g);
    }
  }

  lemma {:induction false} ResolveKeepsInv(f: Flight, c: Caller)
    requires Inv(f) && Enabled(f, Resolve(c))
    ensures Inv(Step(f, Resolve(c)))
  {
    hide GateInv, Inside;
    var f' := Step(f, Resolve(c));
    forall g | 0 <= g < |f'.gates| ensures GateInv(f', g) {
      ResolveKeepsGate(f, c, g);
    }
  }

  lemma {:induction false} LeaveKeepsInv(f: Flight, c: Caller)
    requires Inv(f)
    ensures Inv(Step(f, Leave(c)))
  {
    var f' := Step(f, Leave(c));
    if c in f.waiting {
      forall g | 0 <= g < |f'.gates| ensures GateInv(f', g) {
        assert GateInv(f, g);
        if f.waiting[c] == g {
          assert c in Inside(f, g);
          assert Inside(f', g) == Inside(f, g) - {c};
        } else {
          assert Inside(f', g) == Inside(f, g);
        }
      }
    }
  }

  lemma {:induction false} SettleKeepsInv(f: Flight, g: nat)
    requires Inv(f) && Enabled(f, Settle(g))
    ensures Inv(Step(f, Settle(g)))
  {
    var f' := Step(f, Settle(g));
    forall h | 0 <= h < |f'.gates| ensures GateInv(f', h) {
      assert GateInv(f, h) && Inside(f', h) == Inside(f, h);
    }
  }

  lemma {:induction false} UnregisterKeepsInv(f: Flight, g: nat)
    requires Inv(f) && Enabled(f, Unregister(g))
    ensures Inv(Step(f, Unregister(g)))
  {
    var f' := Step(f, Unregister(g));
    forall h | 0 <= h < |f'.gates| ensures GateInv(f', h) {
      assert GateInv(f, h) && Inside(f', h) == Inside(f, h);
    }
  }

  lemma {:induction false} StepKeepsInv(f: Flight, e: Event)
    requires Inv(f) && Enabled(f, e)
    ensures Inv(Step(f, e))
  {
    match e
    case Resolve(c) => ResolveKeepsInv(f, c);
    case Leave(c) => LeaveKeepsInv(f, c);
    case Settle(g) => SettleKeepsInv(f, g);
    case Unregister(g) => UnregisterKeepsInv(f, g);
  }

  lemma {:induction false} RunKeepsInv(f: Flight, es: seq<Event>, f': Flight)
    requires Inv(f) && Runs(f, es, f')
    ensures Inv(f')
    decreases |es|
  {
    if es != [] {
      StepKeepsInv(f, es[0]);
      RunKeepsInv(Step(f, es[0]), es[1..], f');
    }
  }

  /**
   Over any run, a gate's count is the number of callers that entered it and have
   not left, and its controller is aborted exactly when nobody is left: one
   caller's abort never cancels a refresh that another caller still awaits.
   */
  lemma {:induction false} AbortsExactlyWhenEmpty(es: seq<Event>, f: Flight, g: nat)
    requires Runs(NO_FLIGHT, es, f) && g < |f.gates|
    ensures f.gates[g].active == |Inside(f, g)|
    ensures f.gates[g].aborted <==> Inside(f, g) == {}
  {
    RunKeepsInv(NO_FLIGHT, es, f);
    assert GateInv(f, g);
  }

  /**
   A caller that needs a refresh never waits on an aborted one: it joins the
   registered one if somebody still waits there, else it starts its own. What it
   joins is settled if and only if that one has settled and is not unregistered
   yet, and then the caller has its result at once. At any time at most one
   pending refresh has anybody waiting for it.
   */
  lemma {:induction false} NeverJoinsAnAbortedGate(es: seq<Event>, f: Flight, c: Caller)
    requires Runs(NO_FLIGHT, es, f) && Enabled(f, Resolve(c))
    ensures var f' := Step(f, Resolve(c));
            && c in f'.waiting && f'.waiting[c] < |f'.gates|
            && !f'.gates[f'.waiting[c]].aborted
            && (f'.waiting[c] in f'.settled <==>
                  f.current.Some? && f.current.value in f.settled && Inside(f, f.current.value) != {})
            && f'.current == Some(f'.waiting[c])
            && (f.current.Some? && Inside(f, f.current.value) != {} ==> f'.waiting[c] == f.current.value)
            && (!(f.current.Some? && Inside(f, f.current.value) != {}) ==> f'.waiting[c] == |f.gates|)
    ensures forall g, h :: Awaited(f, g) && Awaited(f, h) ==> g == h
  {
    RunKeepsInv(NO_FLIGHT, es, f);
    if f.current.Some? {
      assert GateInv(f, f.current.value);
    }
    forall g, h | Awaited(f, g) && Awaited(f, h)
      ensures g == h
    {
      assert GateInv(f, g) && GateInv(f, h);
    }
  }

  /** Leaving twice counts once. */
  lemma {:induction false} LeavingTwiceCountsOnce(es: seq<Event>, f: Flight, c: Caller)
    requires Runs(NO_FLIGHT, es, f)
    ensures Step(Step(f, Leave(c)), Leave(c)) == Step(f, Leave(c))
  {
  }
}

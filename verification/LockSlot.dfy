/**
 The in-process half of the credential lock: the FIFO queue that lets one
 asynchronous acquirer of a path at a time reach the lock file.

 Arrivals are numbered in order, so a waiter's number says when it came.
 `LockSlot` is the object the program keeps per path, updated in place; the
 functions on `Slot` say what each update is, and the lemmas are about them.
 */
module LockSlots {
  type Id = nat

  datatype Outcome = Granted | TimedOut | Aborted

  /** The slot together with the history that its promises have produced. */
  datatype Slot = Slot(
    held: bool,
    waiters: seq<Id>,
    outstanding: set<Id>,      // callers that were granted the slot and have not given it back
    released: set<Id>,         // callers whose `released` flag is set
    outcome: map<Id, Outcome>, // promises already settled
    grants: seq<Id>,           // in the order they were made
    next: Id)

  const EMPTY_SLOT := Slot(false, [], {}, {}, map[], [], 0)

  datatype Event =
    | Arrive(aborted: bool, expired: bool)
    | Release(id: Id)
    | Abort(id: Id)
    | Expire(id: Id)

  function Settle(s: Slot, id: Id, o: Outcome): Slot {
    if id in s.outcome then s else s.(outcome := s.outcome[id := o])
  }

  function Grant(s: Slot, id: Id): Slot {
    if id in s.outcome then s
    else s.(outcome := s.outcome[id := Granted], outstanding := s.outstanding + {id}, grants := s.grants + [id])
  }

  /** Index of the first occurrence, or the length. */
  function IndexOf(ids: seq<Id>, id: Id): (k: nat)
    ensures k <= |ids|
    ensures k < |ids| ==> ids[k] == id
    ensures id !in ids[..k]
  {
    if ids == [] || ids[0] == id then 0 else 1 + IndexOf(ids[1..], id)
  }

  function Without(ids: seq<Id>, id: Id): seq<Id> {
    var k := IndexOf(ids, id);
    if k < |ids| then ids[..k] + ids[k + 1..] else ids
  }

  /** A request with an aborted signal or a passed deadline never queues. */
  function ArriveIn(s: Slot, aborted: bool, expired: bool): Slot {
    var id := s.next;
    var t := s.(next := id + 1);
    if aborted then Settle(t, id, Aborted)
    else if !s.held then Grant(t.(held := true), id)
    else if expired then Settle(t, id, TimedOut)
    else t.(waiters := s.waiters + [id])
  }

  /** The shared release closure: it hands the token on whoever calls it, and however often. */
  function PassOn(s: Slot): Slot {
    if s.waiters == [] then s.(held := false)
    else Grant(s.(waiters := s.waiters[1..]), s.waiters[0])
  }

  /** What a caller can do: its own flag lets the closure through once. */
  function ReleaseIn(s: Slot, id: Id): Slot {
    if id in s.released then s
    else PassOn(s.(released := s.released + {id}, outstanding := s.outstanding - {id}))
  }

  function LeaveIn(s: Slot, id: Id, o: Outcome): Slot {
    Settle(s.(waiters := Without(s.waiters, id)), id, o)
  }

  predicate WasGranted(s: Slot, id: Id) {
    id in s.outcome && s.outcome[id] == Granted
  }

  /** Whoever was granted the slot may release, again and again; timers belong to known arrivals. */
  predicate Allowed(s: Slot, e: Event) {
    match e
    case Arrive(_, _) => true
    case Release(id) => WasGranted(s, id)
    case Abort(id) => id < s.next
    case Expire(id) => id < s.next
  }

  function After(s: Slot, e: Event): Slot {
    match e
    case Arrive(aborted, expired) => ArriveIn(s, aborted, expired)
    case Release(id) => ReleaseIn(s, id)
    case Abort(id) => LeaveIn(s, id, Aborted)
    case Expire(id) => LeaveIn(s, id, TimedOut)
  }

  ghost predicate Runs(s: Slot, es: seq<Event>, s': Slot)
    decreases |es|
  {
    if es == [] then s' == s else Allowed(s, es[0]) && Runs(After(s, es[0]), es[1..], s')
  }

  ghost predicate Increasing(ids: seq<Id>) {
    forall i, j :: 0 <= i < j < |ids| ==> ids[i] < ids[j]
  }

  ghost predicate Inv(s: Slot) {
    && TokenInv(s)
    && (s.waiters != [] ==> s.held)
    && Increasing(s.waiters)
    && Increasing(s.grants)
    // Exactly the waiters are unsettled.
    && (forall id: Id :: id < s.next ==> (id in s.waiters <==> id !in s.outcome))
    && (forall id: Id :: id in s.waiters || id in s.outcome ==> id < s.next)
    && (forall id: Id :: id in s.grants <==> (id in s.outcome && s.outcome[id] == Granted))
    // Whoever was granted came before everyone still queued.
    && (forall g, w :: g in s.grants && w in s.waiters ==> g < w)
  }

  /** The one token: while the slot is held the last caller granted has it, and all others gave it back. */
  ghost predicate TokenInv(s: Slot) {
    && (s.held ==> s.grants != [] && s.outstanding == {s.grants[|s.grants| - 1]})
    && (!s.held ==> s.outstanding == {})
    && s.outstanding !! s.released
    && (forall id: Id :: WasGranted(s, id) <==> id in s.outstanding || id in s.released)
  }

  /** Nothing settled or granted is ever taken back. */
  ghost predicate Extends(s: Slot, s': Slot) {
    && (forall id: Id :: id in s.outcome ==> id in s'.outcome && s'.outcome[id] == s.outcome[id])
    && s.grants <= s'.grants
    && s.next <= s'.next
  }

  lemma {:induction false} WithoutProperty(ids: seq<Id>, id: Id)
    requires Increasing(ids)
    ensures Increasing(Without(ids, id))
    ensures forall x :: x in Without(ids, id) <==> x in ids && x != id
  {
    var k := IndexOf(ids, id);
    if k < |ids| {
      assert ids == ids[..k] + [id] + ids[k + 1..];
    } else {
      assert ids[..k] == ids;
    }
  }

  lemma {:induction false} IncreasingAppend(ids: seq<Id>, id: Id)
    requires Increasing(ids) && forall x :: x in ids ==> x < id
    ensures Increasing(ids + [id])
  {
    forall i | 0 <= i < |ids| ensures ids[i] < id {
      assert ids[i] in ids;
    }
  }

  lemma {:induction false} IncreasingRest(ids: seq<Id>)
    requires ids != [] && Increasing(ids)
    ensures Increasing(ids[1..])
    ensures forall x :: x in ids <==> x == ids[0] || x in ids[1..]
    ensures forall x :: x in ids[1..] ==> ids[0] < x
  {
    assert ids == [ids[0]] + ids[1..];
  }

  lemma {:induction false} ArriveKeepsInv(s: Slot, aborted: bool, expired: bool)
    requires Inv(s)
    ensures Inv(ArriveIn(s, aborted, expired))
  {
    assert s.next !in s.outcome && s.next !in s.waiters;
    IncreasingAppend(s.waiters, s.next);
    IncreasingAppend(s.grants, s.next);
  }

  lemma {:induction false} ReleaseKeepsInv(s: Slot, id: Id)
    requires Inv(s) && WasGranted(s, id)
    ensures Inv(ReleaseIn(s, id))
  {
    if id !in s.released {
      assert s.held && s.outstanding - {id} == {};
      if s.waiters != [] {
        IncreasingRest(s.waiters);
        assert s.waiters[0] in s.waiters && s.waiters[0] !in s.outcome;
        IncreasingAppend(s.grants, s.waiters[0]);
        hide Increasing;
      }
    }
  }

  lemma {:induction false} LeaveKeepsInv(s: Slot, id: Id, o: Outcome)
    requires Inv(s) && id < s.next && o != Granted
    ensures Inv(LeaveIn(s, id, o))
  {
    WithoutProperty(s.waiters, id);
  }

  lemma {:induction false} StepKeepsInv(s: Slot, e: Event)
    requires Inv(s) && Allowed(s, e)
    ensures Inv(After(s, e))
  {
    match e
    case Arrive(a, x) => ArriveKeepsInv(s, a, x);
    case Release(id) => ReleaseKeepsInv(s, id);
    case Abort(id) => LeaveKeepsInv(s, id, Aborted);
    case Expire(id) => LeaveKeepsInv(s, id, TimedOut);
  }

  lemma {:induction false} RunKeepsInv(s: Slot, es: seq<Event>, s': Slot)
    requires Inv(s) && Runs(s, es, s')
    ensures Inv(s')
    ensures Extends(s, s')
    decreases |es|
  {
    if es != [] {
      StepKeepsInv(s, es[0]);
      StepIsMonotone(s, es[0]);
      RunKeepsInv(After(s, es[0]), es[1..], s');
    }
  }

  lemma {:induction false} StepIsMonotone(s: Slot, e: Event)
    requires Inv(s) && Allowed(s, e)
    ensures Extends(s, After(s, e))
  {
  }

  /**
   One token. Over any run of arrivals, releases, aborts and timeouts, with callers
   releasing as often as they like: the callers that have the slot and have not
   given it back are one while it is held and none while it is free, nobody waits
   on a free slot, a promise is settled iff its caller left the queue, and grants
   are made in arrival order.
   */
  lemma {:induction false} OneTokenInArrivalOrder(es: seq<Event>, s: Slot)
    requires Runs(EMPTY_SLOT, es, s)
    ensures |s.outstanding| == if s.held then 1 else 0
    ensures forall id: Id :: id in s.outstanding <==> WasGranted(s, id) && id !in s.released
    ensures s.waiters != [] ==> s.held
    ensures forall id: Id :: id < s.next ==> (id in s.waiters <==> id !in s.outcome)
    ensures Increasing(s.grants)
    ensures forall g, w :: g in s.grants && w in s.waiters ==> g < w
  {
    RunKeepsInv(EMPTY_SLOT, es, s);
  }

  /**
   Why the flag is there. The closure itself takes a second call for a release of
   whoever has the slot by then: that caller still has it when the next one gets it.
   */
  lemma {:induction false} UnflaggedReleaseMakesTwoHolders()
    ensures exists es, s :: Runs(EMPTY_SLOT, es, s) && |PassOn(s).outstanding| == 2
  {
    var s1 := After(EMPTY_SLOT, Arrive(false, false));
    var s2 := After(s1, Arrive(false, false));
    var s3 := After(s2, Release(0));
    var s4 := After(s3, Arrive(false, false));
    assert Runs(s4, [], s4);
    assert Runs(s3, [Arrive(false, false)] + [], s4);
    assert Runs(s2, [Release(0)] + [Arrive(false, false)], s4);
    assert Runs(s1, [Arrive(false, false)] + [Release(0), Arrive(false, false)], s4);
    assert Runs(EMPTY_SLOT, [Arrive(false, false)] + [Arrive(false, false), Release(0), Arrive(false, false)], s4);
    assert PassOn(s4).outstanding == {1, 2};
  }

  /** A settled promise keeps its first outcome whatever happens later. */
  lemma {:induction false} SettledOnce(es: seq<Event>, s: Slot, more: seq<Event>, s': Slot, id: Id)
    requires Runs(EMPTY_SLOT, es, s) && Runs(s, more, s') && id in s.outcome
    ensures id in s'.outcome && s'.outcome[id] == s.outcome[id]
    ensures id !in s'.waiters
  {
    RunKeepsInv(EMPTY_SLOT, es, s);
    RunKeepsInv(s, more, s');
  }

  /**
   The holder's release hands the token to the oldest caller still waiting, never
   to one that timed out or aborted, and frees the slot only when nobody waits. A
   former holder's release changes nothing.
   */
  lemma {:induction false} HandOver(es: seq<Event>, s: Slot, id: Id)
    requires Runs(EMPTY_SLOT, es, s) && WasGranted(s, id)
    ensures var s' := ReleaseIn(s, id);
            if id !in s.outstanding then s' == s
            else if s.waiters == [] then !s'.held && s'.outstanding == {} && s'.grants == s.grants
            else
              && s'.held && s'.outstanding == {s.waiters[0]}
              && s.waiters[0] !in s.outcome
              && s'.outcome == s.outcome[s.waiters[0] := Granted]
              && (forall w :: w in s.waiters ==> s.waiters[0] <= w)
  {
    RunKeepsInv(EMPTY_SLOT, es, s);
    if id in s.outstanding && s.waiters != [] {
      assert s.waiters[0] in s.waiters;
      assert s.outstanding == {id};
    }
  }

  /**
   Who leaves the queue leaves it for its own reason and alone: the others keep their places. A caller
   that is settled already loses nothing by a late signal or timer.
   */
  lemma {:induction false} LeavingAlone(es: seq<Event>, s: Slot, id: Id, o: Outcome)
    requires Runs(EMPTY_SLOT, es, s) && id < s.next && o != Granted
    ensures var s' := LeaveIn(s, id, o);
            if id in s.outcome then s' == s
            else
              && s'.outcome == s.outcome[id := o] && s'.held == s.held && s'.outstanding == s.outstanding
              && s'.grants == s.grants && s'.released == s.released && s'.next == s.next
              && exists k :: 0 <= k < |s.waiters| && s.waiters[k] == id
                             && s'.waiters == s.waiters[..k] + s.waiters[k + 1..]
  {
    RunKeepsInv(EMPTY_SLOT, es, s);
    var k := IndexOf(s.waiters, id);
    if id in s.outcome {
      assert id !in s.waiters;
      assert k == |s.waiters|;
      assert Without(s.waiters, id) == s.waiters;
    } else {
      assert id in s.waiters;
      assert s.waiters == s.waiters[..k] + s.waiters[k..];
      assert k < |s.waiters|;
      assert s.waiters[k] == id;
    }
  }

  /** A signal leaves a waiter aborted, a timer leaves it timed out, and neither moves a caller that has the slot. */
  lemma {:induction false} WaiterLeavesAs(es: seq<Event>, s: Slot, id: Id)
    requires Runs(EMPTY_SLOT, es, s) && id < s.next
    ensures id in s.waiters ==>
              && After(s, Abort(id)).outcome == s.outcome[id := Aborted] && id !in After(s, Abort(id)).waiters
              && After(s, Expire(id)).outcome == s.outcome[id := TimedOut] && id !in After(s, Expire(id)).waiters
    ensures WasGranted(s, id) ==> After(s, Abort(id)) == s && After(s, Expire(id)) == s
  {
    RunKeepsInv(EMPTY_SLOT, es, s);
    LeavingAlone(es, s, id, Aborted);
    LeavingAlone(es, s, id, TimedOut);
    WithoutProperty(s.waiters, id);
  }

  /** An arrival is aborted, granted, timed out or queued last, looked at in this order. */
  lemma {:induction false} ArrivalIsDecided(es: seq<Event>, s: Slot, aborted: bool, expired: bool)
    requires Runs(EMPTY_SLOT, es, s)
    ensures var s' := ArriveIn(s, aborted, expired);
            var id := s.next;
            && s'.next == id + 1
            && (aborted ==> s'.outcome == s.outcome[id := Aborted] && s'.held == s.held && s'.waiters == s.waiters)
            && (!aborted && !s.held ==> s'.held && s'.outstanding == {id} && s'.outcome == s.outcome[id := Granted])
            && (!aborted && s.held && expired ==> s'.outcome == s.outcome[id := TimedOut] && s'.waiters == s.waiters)
            && (!aborted && s.held && !expired ==> s'.waiters == s.waiters + [id] && s'.outcome == s.outcome)
            && (aborted || s.held ==> s'.outstanding == s.outstanding && s'.grants == s.grants)
  {
    RunKeepsInv(EMPTY_SLOT, es, s);
  }

  /** The slot as the program keeps it: `held` and `waiters`, changed in place. */
  class LockSlot {
    var held: bool
    var waiters: seq<Id>
    var released: set<Id>      // the flags of the lock objects handed out
    ghost var outstanding: set<Id>
    ghost var outcome: map<Id, Outcome>
    ghost var grants: seq<Id>
    var next: Id

    ghost function State(): Slot
      reads this
    {
      Slot(held, waiters, outstanding, released, outcome, grants, next)
    }

    constructor ()
      ensures State() == EMPTY_SLOT
    {
      held, waiters, released, next := false, [], {}, 0;
      outstanding, outcome, grants := {}, map[], [];
    }

    /** Returns whether the caller got the slot at once, and its number. */
    method Acquire(aborted: bool, expired: bool) returns (id: Id, queued: bool, granted: bool)
      requires Inv(State())
      modifies this
      ensures State() == ArriveIn(old(State()), aborted, expired) && Inv(State())
      ensures id == old(next)
      ensures granted <==> !aborted && !old(held)
      ensures queued <==> !aborted && old(held) && !expired
    {
      ArriveKeepsInv(State(), aborted, expired);
      id, queued, granted := next, false, false;
      next := next + 1;
      if aborted {
        outcome := outcome[id := Aborted];
        return;
      }
      if !held {
        held, granted := true, true;
        outcome, outstanding, grants := outcome[id := Granted], outstanding + {id}, grants + [id];
        return;
      }
      if expired {
        outcome := outcome[id := TimedOut];
        return;
      }
      queued := true;
      waiters := waiters + [id];
    }

    /** The lock object's release: the flag, then shift the first waiter and grant it, or free the slot. */
    method ReleaseSlot(id: Id)
      requires Inv(State()) && WasGranted(State(), id)
      modifies this
      ensures State() == ReleaseIn(old(State()), id) && Inv(State())
    {
      ReleaseKeepsInv(State(), id);
      if id in released {
        return;
      }
      released := released + {id};
      outstanding := outstanding - {id};
      if waiters != [] {
        var w := waiters[0];
        assert w in waiters && w !in outcome;
        waiters := waiters[1..];
        outcome, outstanding, grants := outcome[w := Granted], outstanding + {w}, grants + [w];
      } else {
        held := false;
      }
    }

    /** The abort listener and the timer: splice the waiter out if it is still queued. */
    method Leave(id: Id, o: Outcome)
      requires Inv(State()) && id < next && o != Granted
      modifies this
      ensures State() == LeaveIn(old(State()), id, o) && Inv(State())
    {
      LeaveKeepsInv(State(), id, o);
      ghost var before := waiters;
      var index := 0;
      while index < |waiters| && waiters[index] != id
        invariant 0 <= index <= |waiters|
        invariant waiters == before
        invariant id !in waiters[..index]
      {
        index := index + 1;
      }
      FirstIndex(waiters, id, index);
      if index < |waiters| {
        waiters := waiters[..index] + waiters[index + 1..];
      }
      if id !in outcome {
        outcome := outcome[id := o];
      }
    }
  }

  lemma {:induction false} FirstIndex(ids: seq<Id>, id: Id, k: nat)
    requires k <= |ids| && id !in ids[..k] && (k < |ids| ==> ids[k] == id)
    ensures IndexOf(ids, id) == k
  {
    if k > 0 {
      assert ids[0] == ids[..k][0];
      assert ids[1..][..k - 1] == ids[..k][1..];
      FirstIndex(ids[1..], id, k - 1);
    }
  }
}

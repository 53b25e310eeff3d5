/**
 An exclusive lock as its users see it: taken only while free, given up only by
 whoever has it. The lock file is shown to be one, and the refresh protocol to use
 it as one.
 */
module ExclusiveLock {
  import opened Options

  datatype LockEvent<Holder> = Take(holder: Holder) | GiveUp(holder: Holder)

  /** The events lead from one holder, or none, to another. */
  ghost predicate LockRun<Holder>(from: Option<Holder>, es: seq<LockEvent<Holder>>, to: Option<Holder>)
    decreases |es|
  {
    if es == [] then to == from
    else match es[0]
      case Take(h) => from == None && LockRun(Some(h), es[1..], to)
      case GiveUp(h) => from == Some(h) && LockRun(None, es[1..], to)
  }

  lemma {:induction false} LockRunAppend<Holder>(
      from: Option<Holder>, a: seq<LockEvent<Holder>>, mid: Option<Holder>, b: seq<LockEvent<Holder>>,
      to: Option<Holder>)
    requires LockRun(from, a, mid) && LockRun(mid, b, to)
    ensures LockRun(from, a + b, to)
    decreases |a|
  {
    if a == [] {
      assert a + b == b;
    } else {
      var next := if a[0].Take? then Some(a[0].holder) else None;
      LockRunAppend(next, a[1..], mid, b, to);
      assert (a + b)[1..] == a[1..] + b;
    }
  }
}

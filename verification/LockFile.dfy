/**
 The operating-system half of the credential lock: one lock file, any number of
 processes, and every session inside them.

 The lock of a path is advisory and belongs to a process, not to a connection.
 A process is never refused by its own lock, and closing any of its connections
 to the file drops it. A process in the middle of a synchronous stretch runs
 nothing else, but other processes may act between any two of its system calls,
 so opening, locking, rolling back and closing are separate steps here.
 Lock files of different paths share no state, so the model follows one path.
 */
module LockFile {
  import opened ExclusiveLock
  import opened Options

  type Pid = nat
  type Conn = nat

  /** How far a process is through a synchronous stretch on this path. */
  datatype Stretch =
    | Quiet
    | Opened(conn: Conn)     // connected, BEGIN IMMEDIATE not yet tried
    | Failing(conn: Conn)    // BEGIN IMMEDIATE failed, connection not yet closed
    | Releasing(conn: Conn)  // rolled back, connection not yet closed

  /** One process: its entry in the `held` map, its open connections, its stretch. */
  datatype Process = Process(held: Option<Conn>, conns: set<Conn>, stretch: Stretch)

  /** The lock object a session got from an acquire and has not released. */
  datatype Handle = Handle(pid: Pid, conn: Conn)

  datatype World = World(
    procs: map<Pid, Process>,
    owner: Option<Pid>,      // the process the operating system gives the lock to
    handles: set<Handle>,    // outstanding lock objects, over all processes
    nextConn: Conn)

  datatype Action =
    | Open(pid: Pid)
    | BeginOk(pid: Pid)
    | BeginFails(pid: Pid)
    | CloseFailed(pid: Pid)
    | Rollback(pid: Pid, conn: Conn)
    | CloseReleased(pid: Pid)
    | ReleaseAgain(pid: Pid)
    | Die(pid: Pid)

  const NEW_PROCESS := Process(None, {}, Quiet)

  ghost predicate Init(w: World) {
    && w.owner == None
    && w.handles == {}
    && forall p :: p in w.procs ==> w.procs[p] == NEW_PROCESS
  }

  /** The operating system's rule for closing: any close drops the process's lock. */
  function OwnerAfterClose(owner: Option<Pid>, p: Pid): Option<Pid> {
    if owner == Some(p) then None else owner
  }

  /**
   What the code and the operating system allow. `guarded` is the
   `held.has(path)` test that both acquire loops make before opening; the code
   always runs with it on.
   */
  predicate Enabled(w: World, a: Action, guarded: bool) {
    && a.pid in w.procs
    && var q := w.procs[a.pid];
       match a
       case Open(_) => q.stretch == Quiet && (guarded ==> q.held == None)
       case BeginOk(p) => q.stretch.Opened? && (w.owner == None || w.owner == Some(p))
       case BeginFails(_) => q.stretch.Opened?
       case CloseFailed(_) => q.stretch.Failing?
       case Rollback(p, c) => q.stretch == Quiet && Handle(p, c) in w.handles
       case CloseReleased(_) => q.stretch.Releasing?
       case ReleaseAgain(_) => q.stretch == Quiet
       case Die(_) => true
  }

  function Step(w: World, a: Action): World
    requires Enabled(w, a, false)
  {
    var p := a.pid;
    var q := w.procs[p];
    match a
    case Open(_) =>
      var c := w.nextConn;
      w.(procs := w.procs[p := q.(conns := q.conns + {c}, stretch := Opened(c))], nextConn := c + 1)
    case BeginOk(_) =>
      var c := q.stretch.conn;
      w.(procs := w.procs[p := q.(held := Some(c), stretch := Quiet)],
         owner := Some(p),
         handles := w.handles + {Handle(p, c)})
    case BeginFails(_) =>
      w.(procs := w.procs[p := q.(stretch := Failing(q.stretch.conn))])
    case CloseFailed(_) =>
      w.(procs := w.procs[p := q.(conns := q.conns - {q.stretch.conn}, stretch := Quiet)],
         owner := OwnerAfterClose(w.owner, p))
    case Rollback(_, c) =>
      w.(procs := w.procs[p := q.(stretch := Releasing(c))],
         owner := OwnerAfterClose(w.owner, p),
         handles := w.handles - {Handle(p, c)})
    case CloseReleased(_) =>
      var c := q.stretch.conn;
      w.(procs := w.procs[p := q.(held := if q.held == Some(c) then None else q.held,
                                  conns := q.conns - {c},
                                  stretch := Quiet)],
         owner := OwnerAfterClose(w.owner, p))
    case ReleaseAgain(_) => w
    case Die(_) =>
      w.(procs := w.procs[p := NEW_PROCESS],
         owner := OwnerAfterClose(w.owner, p),
         handles := set h | h in w.handles && h.pid != p)
  }

  /** `w'` is reached from `w` by the actions, each allowed when it happens. */
  ghost predicate Runs(w: World, acts: seq<Action>, w': World, guarded: bool)
    decreases |acts|
  {
    if acts == [] then w' == w
    else Enabled(w, acts[0], guarded) && Runs(Step(w, acts[0]), acts[1..], w', guarded)
  }

  /** The property: no two sessions, of one process or of two, hold the lock. */
  ghost predicate Exclusive(w: World) {
    forall h, k :: h in w.handles && k in w.handles ==> h == k
  }

  /** One process never has two connections to the path, and none beside the one it holds. */
  ghost predicate OneConnection(q: Process) {
    match q.stretch
    case Quiet => q.conns == if q.held.Some? then {q.held.value} else {}
    case Opened(c) => q.held == None && q.conns == {c}
    case Failing(c) => q.held == None && q.conns == {c}
    case Releasing(c) => q.held == Some(c) && q.conns == {c}
  }

  ghost predicate Inv(w: World) {
    && (forall p :: p in w.procs ==> OneConnection(w.procs[p]))
    && (forall h :: h in w.handles ==>
          && h.pid in w.procs
          && w.owner == Some(h.pid)
          && w.procs[h.pid].stretch == Quiet
          && w.procs[h.pid].held == Some(h.conn))
    && (forall p :: p in w.procs && w.procs[p].stretch == Quiet && w.procs[p].held.Some? ==>
          Handle(p, w.procs[p].held.value) in w.handles)
  }

  lemma {:induction false} StepKeepsInv(w: World, a: Action)
    requires Inv(w) && Enabled(w, a, true)
    ensures Inv(Step(w, a))
  {
    var w' := Step(w, a);
    var p := a.pid;
    assert forall o :: o in w.procs && o != p ==> w'.procs[o] == w.procs[o];
  }

  lemma {:induction false} RunKeepsInv(w: World, acts: seq<Action>, w': World)
    requires Inv(w) && Runs(w, acts, w', true)
    ensures Inv(w')
    decreases |acts|
  {
    if acts != [] {
      StepKeepsInv(w, acts[0]);
      RunKeepsInv(Step(w, acts[0]), acts[1..], w');
    }
  }

  /**
   In every reachable state at most one session holds the lock, and while one
   does the operating system agrees and its process has exactly that connection.
   */
  lemma {:induction false} MutualExclusion(w: World, acts: seq<Action>, w': World)
    requires Init(w) && Runs(w, acts, w', true)
    ensures Exclusive(w')
    ensures forall h :: h in w'.handles ==>
              && w'.owner == Some(h.pid)
              && h.pid in w'.procs
              && w'.procs[h.pid].conns == {h.conn}
    ensures forall p :: p in w'.procs ==> |w'.procs[p].conns| <= 1
  {
    RunKeepsInv(w, acts, w');
    forall p | p in w'.procs ensures |w'.procs[p].conns| <= 1 {
      assert OneConnection(w'.procs[p]);
    }
  }

  /**
   What the layers above may rely on. Seen from outside, every step takes a free
   lock, or releases it by the session that has it, or is that session's process
   dying, or goes unnoticed.
   */
  lemma {:induction false} EveryStepIsALockStep(w: World, a: Action)
    requires Inv(w) && Enabled(w, a, true)
    ensures var w' := Step(w, a);
            || w'.handles == w.handles
            || (a.BeginOk? && w.handles == {} && w'.handles == {Handle(a.pid, w.procs[a.pid].stretch.conn)})
            || (a.Rollback? && w.handles == {Handle(a.pid, a.conn)} && w'.handles == {})
            || (a.Die? && w'.handles == {} && exists h :: h in w.handles && h.pid == a.pid && w.handles == {h})
  {
    var w' := Step(w, a);
    match a
    case BeginOk(p) =>
      assert forall h :: h in w.handles ==> w.owner == Some(h.pid) && h.pid != p;
      assert w.handles == {};
    case Rollback(p, c) => OnlyHandle(w, Handle(p, c));
    case Die(p) =>
      if h :| h in w.handles && h.pid == p {
        OnlyHandle(w, h);
      }
    case _ =>
  }

  lemma {:induction false} OnlyHandle(w: World, h: Handle)
    requires Inv(w) && h in w.handles
    ensures w.handles == {h}
  {
    forall k | k in w.handles ensures k == h {
      assert w.owner == Some(k.pid);
    }
  }

  /** Who has the lock, of the at most one who does. */
  ghost function HolderOf(w: World): (h: Option<Handle>)
    ensures h == None <==> w.handles == {}
    ensures h.Some? ==> h.value in w.handles
  {
    if w.handles == {} then None else var h :| h in w.handles; Some(h)
  }

  /** What a step does to the lock. */
  ghost function LockEventOf(w: World, a: Action): seq<LockEvent<Handle>>
    requires Enabled(w, a, true)
  {
    var before, after := HolderOf(w), HolderOf(Step(w, a));
    if after == before then []
    else if after.Some? then [Take(after.value)]
    else if before.Some? then [GiveUp(before.value)] else []
  }

  ghost function LockTrace(w: World, acts: seq<Action>): seq<LockEvent<Handle>>
    decreases |acts|
  {
    if acts == [] || !Enabled(w, acts[0], true) then []
    else LockEventOf(w, acts[0]) + LockTrace(Step(w, acts[0]), acts[1..])
  }

  lemma {:induction false} StepIsALockRun(w: World, a: Action)
    requires Inv(w) && Enabled(w, a, true)
    ensures LockRun(HolderOf(w), LockEventOf(w, a), HolderOf(Step(w, a)))
  {
    EveryStepIsALockStep(w, a);
    var es := LockEventOf(w, a);
    if es != [] {
      assert es[1..] == [];
    }
  }

  /** Over any run the lock file is an exclusive lock whose holders are the sessions' lock objects. */
  lemma {:induction false} RunIsALockRun(w: World, acts: seq<Action>, w': World)
    requires Inv(w) && Runs(w, acts, w', true)
    ensures LockRun(HolderOf(w), LockTrace(w, acts), HolderOf(w'))
    decreases |acts|
  {
    if acts != [] {
      StepKeepsInv(w, acts[0]);
      RunIsALockRun(Step(w, acts[0]), acts[1..], w');
      StepIsALockRun(w, acts[0]);
      LockRunAppend(HolderOf(w), LockEventOf(w, acts[0]), HolderOf(Step(w, acts[0])),
                    LockTrace(Step(w, acts[0]), acts[1..]), HolderOf(w'));
    }
  }

  /**
   The release a session makes gives the lock up and disturbs nobody else:
   after the rollback and the close the process is as before it acquired.
   */
  lemma {:induction false} ReleaseFreesTheLock(w: World, h: Handle)
    requires Inv(w) && h in w.handles
    ensures Enabled(w, Rollback(h.pid, h.conn), true)
    ensures var w1 := Step(w, Rollback(h.pid, h.conn));
            && Enabled(w1, CloseReleased(h.pid), true)
            && var w2 := Step(w1, CloseReleased(h.pid));
               && w2.handles == {}
               && w2.owner == None
               && w2.procs == w.procs[h.pid := NEW_PROCESS]
  {
    var w1 := Step(w, Rollback(h.pid, h.conn));
    assert OneConnection(w.procs[h.pid]);
    OnlyHandle(w, h);
    var w2 := Step(w1, CloseReleased(h.pid));
    assert w2.procs[h.pid] == NEW_PROCESS;
  }

  /**
   Why the guard is there. Without it a second session of process 0 opens a
   connection, fails, and its close drops the lock that the first session still
   believes it has; process 1 then acquires, and two sessions hold the lock.
   */
  lemma {:induction false} UnguardedOpenBreaksExclusion()
    ensures exists w, acts, w' :: Init(w) && Runs(w, acts, w', false) && !Exclusive(w')
  {
    hide Runs;
    var w0 := World(map[0 := NEW_PROCESS, 1 := NEW_PROCESS], None, {}, 0);
    var w1, a1 := FirstHolder(w0);
    var w2, a2 := SecondConnectionDropsTheLock(w1);
    var w3, a3 := SecondHolder(w2);
    RunsConcat(w1, a2, w2, a3, w3);
    RunsConcat(w0, a1, w1, a2 + a3, w3);
    assert Handle(0, 0) in w3.handles && Handle(1, 2) in w3.handles;
  }

  lemma {:induction false} FirstHolder(w: World) returns (w': World, acts: seq<Action>)
    requires w == World(map[0 := NEW_PROCESS, 1 := NEW_PROCESS], None, {}, 0)
    ensures Runs(w, acts, w', false)
    ensures w' == World(map[0 := Process(Some(0), {0}, Quiet), 1 := NEW_PROCESS], Some(0), {Handle(0, 0)}, 1)
  {
    acts := [Open(0), BeginOk(0)];
    var w1 := Step(w, Open(0));
    w' := Step(w1, BeginOk(0));
    RunsPair(w, Open(0), BeginOk(0));
    assert w1.procs[0] == Process(None, {0}, Opened(0));
    assert w'.procs == map[0 := Process(Some(0), {0}, Quiet), 1 := NEW_PROCESS];
  }

  lemma {:induction false} SecondConnectionDropsTheLock(w: World) returns (w': World, acts: seq<Action>)
    requires w == World(map[0 := Process(Some(0), {0}, Quiet), 1 := NEW_PROCESS], Some(0), {Handle(0, 0)}, 1)
    ensures Runs(w, acts, w', false)
    ensures w' == w.(owner := None, nextConn := 2)
  {
    var w1 := Step(w, Open(0));
    var w2 := Step(w1, BeginFails(0));
    w' := Step(w2, CloseFailed(0));
    RunsPair(w, Open(0), BeginFails(0));
    RunsPair(w2, CloseFailed(0), ReleaseAgain(0));
    acts := [Open(0), BeginFails(0)] + [CloseFailed(0), ReleaseAgain(0)];
    RunsConcat(w, [Open(0), BeginFails(0)], w2, [CloseFailed(0), ReleaseAgain(0)], w');
    assert w'.procs[0] == w.procs[0];
  }

  lemma {:induction false} SecondHolder(w: World) returns (w': World, acts: seq<Action>)
    requires w == World(map[0 := Process(Some(0), {0}, Quiet), 1 := NEW_PROCESS], None, {Handle(0, 0)}, 2)
    ensures Runs(w, acts, w', false)
    ensures w'.handles == {Handle(0, 0), Handle(1, 2)}
  {
    acts := [Open(1), BeginOk(1)];
    w' := Step(Step(w, Open(1)), BeginOk(1));
    RunsPair(w, Open(1), BeginOk(1));
  }

  lemma {:induction false} RunsPair(w: World, a: Action, b: Action)
    requires Enabled(w, a, false) && Enabled(Step(w, a), b, false)
    ensures Runs(w, [a, b], Step(Step(w, a), b), false)
  {
    assert [a, b][1..] == [b] && [b][1..] == [];
    assert Runs(Step(w, a), [b], Step(Step(w, a), b), false);
  }

  lemma {:induction false} RunsConcat(w: World, a: seq<Action>, w1: World, b: seq<Action>, w2: World)
    requires Runs(w, a, w1, false) && Runs(w1, b, w2, false)
    ensures Runs(w, a + b, w2, false)
    decreases |a|
  {
    if a == [] {
      assert a + b == b;
    } else {
      RunsConcat(Step(w, a[0]), a[1..], w1, b, w2);
      assert (a + b)[1..] == a[1..] + b;
    }
  }
}

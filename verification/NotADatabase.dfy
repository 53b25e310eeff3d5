/**
 Recovery from a lock file that is not a database: a bounded retry that deletes
 the file at most once, and only the very file that failed to open.
 */
module NotADatabase {
  import opened Options

  const NOTADB_ATTEMPTS := 3
  const NOTADB_TOTAL_ATTEMPTS := (NOTADB_ATTEMPTS + 1) * 2

  /** Device and inode of the file. */
  datatype FileId = FileId(dev: nat, ino: nat)

  /**
   What one failed open observes: the identity seen before opening, the identity
   seen afterwards, what the header check says, the identity read once more just
   before deleting, and whether the deletion works.
   */
  datatype Failure = Failure(
    seen: Option<FileId>,
    current: Option<FileId>,
    deletable: bool,
    rechecked: Option<FileId>,
    unlinkWorks: bool)

  datatype Verdict = Retry | RetryAfterUnlink | Corrupt

  datatype Progress = Progress(streak: nat, total: nat, recreated: bool)

  const START := Progress(0, 0, false)

  predicate SameFile(a: Option<FileId>, b: Option<FileId>) {
    a.Some? && b.Some? && a == b
  }

  /** The decision for one failure, with the counters after it. */
  function Recover(p: Progress, f: Failure): (Progress, Verdict) {
    var total := p.total + 1;
    var streak := p.streak + 1;
    if total > NOTADB_TOTAL_ATTEMPTS then (p.(total := total), Corrupt)
    else if streak <= NOTADB_ATTEMPTS then (Progress(streak, total, p.recreated), Retry)
    else if f.seen.Some? && f.current.Some? && !SameFile(f.seen, f.current) then
      (Progress(0, total, p.recreated), Retry)
    else if !p.recreated && f.deletable && SameFile(f.seen, f.rechecked) then
      (Progress(0, total, true), if f.unlinkWorks then RetryAfterUnlink else Corrupt)
    else (Progress(streak, total, p.recreated), Corrupt)
  }

  /** The counters an acquire keeps for its retry loop, updated in place. */
  class NotADatabaseState {
    var streak: nat
    var total: nat
    var recreated: bool

    function Value(): Progress
      reads this
    {
      Progress(streak, total, recreated)
    }

    constructor ()
      ensures Value() == START
    {
      streak, total, recreated := 0, 0, false;
    }

    method RecoverNotADatabase(f: Failure) returns (v: Verdict)
      modifies this
      ensures (Value(), v) == Recover(old(Value()), f)
    {
      total := total + 1;
      if total > NOTADB_TOTAL_ATTEMPTS {
        return Corrupt;
      }
      streak := streak + 1;
      if streak <= NOTADB_ATTEMPTS {
        return Retry;
      }
      if f.seen.Some? && f.current.Some? && !SameFile(f.seen, f.current) {
        streak := 0;
        return Retry;
      }
      if !recreated && f.deletable && SameFile(f.seen, f.rechecked) {
        recreated, streak := true, 0;
        return if f.unlinkWorks then RetryAfterUnlink else Corrupt;
      }
      return Corrupt;
    }
  }

  /** The verdicts of an acquire that keeps failing this way; it stops at `Corrupt`. */
  function Verdicts(p: Progress, fs: seq<Failure>): seq<Verdict>
    decreases |fs|
  {
    if fs == [] then []
    else
      var (q, v) := Recover(p, fs[0]);
      if v == Corrupt then [v] else [v] + Verdicts(q, fs[1..])
  }

  function Unlinks(vs: seq<Verdict>): nat {
    if vs == [] then 0 else (if vs[0] == RetryAfterUnlink then 1 else 0) + Unlinks(vs[1..])
  }

  /**
   Whatever the file does between attempts, an acquire retries at most
   `NOTADB_TOTAL_ATTEMPTS` times and deletes the file at most once.
   */
  lemma {:induction false} BoundedRecovery(p: Progress, fs: seq<Failure>)
    requires p.total <= NOTADB_TOTAL_ATTEMPTS
    ensures |Verdicts(p, fs)| <= NOTADB_TOTAL_ATTEMPTS + 1 - p.total
    ensures Unlinks(Verdicts(p, fs)) <= if p.recreated then 0 else 1
    ensures |fs| > NOTADB_TOTAL_ATTEMPTS - p.total ==>
              Verdicts(p, fs) != [] && Verdicts(p, fs)[|Verdicts(p, fs)| - 1] == Corrupt
    decreases |fs|
  {
    if fs != [] {
      var (q, v) := Recover(p, fs[0]);
      if v != Corrupt {
        BoundedRecovery(q, fs[1..]);
        assert ([v] + Verdicts(q, fs[1..]))[1..] == Verdicts(q, fs[1..]);
      } else {
        assert [v][1..] == [];
      }
    }
  }

  /** A deletion only ever hits the file that failed to open, still unchanged. */
  lemma {:induction false} UnlinkOnlyTheFailedFile(p: Progress, f: Failure)
    requires Recover(p, f).1 == RetryAfterUnlink
    ensures f.seen.Some? && f.rechecked == f.seen && f.deletable && f.unlinkWorks
    ensures f.current == None || f.current == f.seen
    ensures !p.recreated && p.streak >= NOTADB_ATTEMPTS
  {
  }

  /**
   A garbage file that nobody replaces is deleted at the fourth failure, and if
   the new file is garbage as well the acquire gives up at the eighth.
   */
  lemma {:induction false} GarbageFile(f: Failure, fs: seq<Failure>)
    requires f.seen.Some? && f.current == f.seen && f.rechecked == f.seen
    requires f.deletable && f.unlinkWorks
    requires |fs| == NOTADB_TOTAL_ATTEMPTS && forall i :: 0 <= i < |fs| ==> fs[i] == f
    ensures Verdicts(START, fs)
            == [Retry, Retry, Retry, RetryAfterUnlink, Retry, Retry, Retry, Corrupt]
  {
    hide Verdicts;
    VerdictsFrom(f, fs, Progress(3, 7, true), 7);
    VerdictsFrom(f, fs, Progress(2, 6, true), 6);
    VerdictsFrom(f, fs, Progress(1, 5, true), 5);
    VerdictsFrom(f, fs, Progress(0, 4, true), 4);
    VerdictsFrom(f, fs, Progress(3, 3, false), 3);
    VerdictsFrom(f, fs, Progress(2, 2, false), 2);
    VerdictsFrom(f, fs, Progress(1, 1, false), 1);
    VerdictsFrom(f, fs, START, 0);
    assert fs[0..] == fs;
  }

  lemma {:induction false} VerdictsFrom(f: Failure, fs: seq<Failure>, p: Progress, k: nat)
    requires k < |fs| && fs[k] == f
    ensures Verdicts(p, fs[k..])
            == var (q, v) := Recover(p, f); if v == Corrupt then [v] else [v] + Verdicts(q, fs[k + 1..])
  {
    assert fs[k..][0] == f && fs[k..][1..] == fs[k + 1..];
  }
}

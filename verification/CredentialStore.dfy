/**
 The credential file, the memory cache in front of it, and the locked
 read-modify-write that every change goes through.

 Replacing the file is atomic and gives it an identity never used before.
 Identities stand for device, inode, size and timestamps taken together.
 */
module CredentialStore {
  import opened Options
  import opened Credentials

  datatype FileState = Missing | Valid(creds: Creds) | Corrupt | Unreadable

  datatype Disk = Disk(file: FileState, id: nat, nextId: nat)

  /** `memoryCache` and `credentialsIdentity` of one process. */
  datatype Cache = Cache(creds: Option<Creds>, id: Option<nat>)

  const COLD := Cache(None, None)

  datatype ReadResult = Read(creds: Creds) | BadJson | ReadError

  datatype CachedAnswer = Unchanged(token: Option<Entry>) | Stale

  datatype MutationResult = Stored | NothingToDo | Threw

  function ReadFile(d: Disk): ReadResult {
    match d.file
    case Missing => Read(map[])
    case Valid(creds) => Read(Sanitize(creds))
    case Corrupt => BadJson
    case Unreadable => ReadError
  }

  function CacheAfterRead(d: Disk, c: Cache): Cache {
    match d.file
    case Missing => Cache(Some(map[]), None)
    case Valid(creds) => Cache(Some(Sanitize(creds)), Some(d.id))
    case Corrupt => c
    case Unreadable => c
  }

  /** The contents a mutation starts from. Invalid JSON counts as an empty store. */
  function LoadForMutation(d: Disk): Option<Creds> {
    match ReadFile(d)
    case Read(creds) => Some(creds)
    case BadJson => Some(map[])
    case ReadError => None
  }

  function Replace(d: Disk, creds: Creds): Disk {
    Disk(Valid(creds), d.nextId, d.nextId + 1)
  }

  /** The cache lookup that compares identities and does not read the file. */
  function CachedOAuth(d: Disk, c: Cache, p: Provider): CachedAnswer {
    if c.creds == None || c.id == None || d.file == Missing || c.id != Some(d.id) then Stale
    else Unchanged(OAuthEntry(c.creds.value, p))
  }

  /** What a fresh read of the file would say about the provider. */
  function DiskOAuth(d: Disk, p: Provider): Option<Entry> {
    match ReadFile(d)
    case Read(creds) => OAuthEntry(creds, p)
    case BadJson => None
    case ReadError => None
  }

  // ------------------------------------------------------------------
  // One process
  // ------------------------------------------------------------------

  /** The file shared by all processes. */
  class CredentialFile {
    var disk: Disk

    constructor (file: FileState)
      ensures disk == Disk(file, 0, 1)
    {
      disk := Disk(file, 0, 1);
    }
  }

  /** The module state of one process. */
  class Store {
    const shared: CredentialFile
    var cache: Cache
    var storeLockDepth: nat

    constructor (shared: CredentialFile)
      ensures this.shared == shared && cache == COLD && storeLockDepth == 0
    {
      this.shared, cache, storeLockDepth := shared, COLD, 0;
    }

    method ReadCredentialsFromDisk() returns (r: ReadResult)
      modifies this`cache
      ensures r == ReadFile(shared.disk)
      ensures cache == CacheAfterRead(shared.disk, old(cache))
    {
      var d := shared.disk;
      match d.file {
        case Missing =>
          cache := Cache(Some(map[]), None);
          return Read(map[]);
        case Unreadable =>
          return ReadError;
        case Corrupt =>
          return BadJson;
        case Valid(stored) =>
          var creds := Sanitize(stored);
          cache := Cache(Some(creds), Some(d.id));
          return Read(creds);
      }
    }

    /** Write a temporary file and rename it over the old one, then adopt what was written. */
    method PersistCredentials(creds: Creds, fails: bool) returns (ok: bool)
      modifies this`cache, shared
      ensures ok == !fails
      ensures shared.disk == if ok then Replace(old(shared.disk), creds) else old(shared.disk)
      ensures cache == if ok then Cache(Some(creds), Some(shared.disk.id)) else old(cache)
    {
      if fails {
        return false;
      }
      shared.disk := Replace(shared.disk, creds);
      cache := Cache(Some(creds), Some(shared.disk.id));
      return true;
    }

    /**
     Lock, read, change a copy, write. A lock that times out, a file that cannot
     be read, a mutator that throws and a write that fails all leave the file as
     it was; a mutator that throws leaves the cache equal to a fresh read.
     */
    method RunCredentialMutation(m: Mutation, lockTimesOut: bool, persistFails: bool)
      returns (r: MutationResult)
      modifies this, shared
      ensures storeLockDepth == old(storeLockDepth)
      ensures r == Stored <==>
                && (old(storeLockDepth) > 0 || !lockTimesOut)
                && !persistFails
                && LoadForMutation(old(shared.disk)).Some?
                && Persists(LoadForMutation(old(shared.disk)).value, m)
      ensures r == NothingToDo ==>
                && LoadForMutation(old(shared.disk)).Some?
                && m.Remove? && m.provider !in LoadForMutation(old(shared.disk)).value
      ensures r == Stored ==>
                var creds := Mutate(LoadForMutation(old(shared.disk)).value, m);
                && shared.disk == Replace(old(shared.disk), creds)
                && cache == Cache(Some(creds), Some(shared.disk.id))
      ensures r != Stored ==>
                && shared.disk == old(shared.disk)
                && (cache == old(cache) || cache == CacheAfterRead(shared.disk, old(cache)))
    {
      if storeLockDepth == 0 && lockTimesOut {
        return Threw;
      }
      storeLockDepth := storeLockDepth + 1;
      var loaded := ReadCredentialsFromDisk();
      if loaded.ReadError? || m.Fails? {
        r := Threw;
      } else {
        var creds := if loaded.Read? then loaded.creds else map[];
        if !Persists(creds, m) {
          r := NothingToDo;
        } else {
          var ok := PersistCredentials(Mutate(creds, m), persistFails);
          r := if ok then Stored else Threw;
        }
      }
      storeLockDepth := storeLockDepth - 1;
    }

    method ReadCachedOAuthIfUnchanged(p: Provider) returns (a: CachedAnswer)
      ensures a == CachedOAuth(shared.disk, cache, p)
    {
      if cache.creds == None || cache.id == None {
        return Stale;
      }
      if shared.disk.file == Missing {
        return Stale;
      }
      if cache.id.value != shared.disk.id {
        return Stale;
      }
      return Unchanged(OAuthEntry(cache.creds.value, p));
    }
  }

  // ------------------------------------------------------------------
  // Any number of processes
  // ------------------------------------------------------------------

  type Pid = nat

  /** How far a process is through its locked section. */
  datatype Section = Outside | Entered | Loaded(creds: Creds) | Finished

  datatype System = System(
    disk: Disk,
    lock: Option<Pid>,
    sections: map<Pid, Section>,
    caches: map<Pid, Cache>,
    log: seq<Mutation>)      // mutations written, in the order of their locked sections

  datatype Action =
    | Lock(pid: Pid)
    | Load(pid: Pid)
    | Write(pid: Pid, m: Mutation)
    | GiveUp(pid: Pid)       // mutator threw, write failed, or nothing to do
    | Unlock(pid: Pid)
    | ReadUnlocked(pid: Pid) // a cold lookup outside any lock
    | Touch(pid: Pid)        // permissions or times change, contents do not
    | Die(pid: Pid)

  ghost predicate Init(s: System, file: FileState) {
    && s.disk == Disk(file, 0, 1)
    && s.lock == None
    && s.log == []
    && s.sections.Keys == s.caches.Keys
    && (forall p :: p in s.sections ==> s.sections[p] == Outside && s.caches[p] == COLD)
  }

  predicate Enabled(s: System, a: Action) {
    && a.pid in s.sections
    && a.pid in s.caches
    && var x := s.sections[a.pid];
       match a
       case Lock(_) => x == Outside && s.lock == None
       case Load(_) => x == Entered
       case Write(_, m) => x.Loaded? && Persists(x.creds, m)
       case GiveUp(_) => x == Entered || x.Loaded?
       case Unlock(_) => x == Finished
       case ReadUnlocked(_) => x == Outside
       case Touch(_) => true
       case Die(_) => true
  }

  function Step(s: System, a: Action): System
    requires Enabled(s, a)
  {
    var p := a.pid;
    match a
    case Lock(_) => s.(lock := Some(p), sections := s.sections[p := Entered])
    case Load(_) =>
      var next := match LoadForMutation(s.disk) case Some(creds) => Loaded(creds) case None => Finished;
      s.(sections := s.sections[p := next], caches := s.caches[p := CacheAfterRead(s.disk, s.caches[p])])
    case Write(_, m) =>
      var creds := Mutate(s.sections[p].creds, m);
      var disk := Replace(s.disk, creds);
      s.(disk := disk,
         sections := s.sections[p := Finished],
         caches := s.caches[p := Cache(Some(creds), Some(disk.id))],
         log := s.log + [m])
    case GiveUp(_) => s.(sections := s.sections[p := Finished])
    case Unlock(_) => s.(lock := None, sections := s.sections[p := Outside])
    case ReadUnlocked(_) => s.(caches := s.caches[p := CacheAfterRead(s.disk, s.caches[p])])
    case Touch(_) => s.(disk := s.disk.(id := s.disk.nextId, nextId := s.disk.nextId + 1))
    case Die(_) =>
      s.(lock := if s.lock == Some(p) then None else s.lock,
         sections := s.sections[p := Outside],
         caches := s.caches[p := COLD])
  }

  ghost predicate Runs(s: System, acts: seq<Action>, s': System)
    decreases |acts|
  {
    if acts == [] then s' == s else Enabled(s, acts[0]) && Runs(Step(s, acts[0]), acts[1..], s')
  }

  /** The contents as a mutation of an untouched file sees them. */
  function Contents(file: FileState): Creds {
    if file.Valid? then file.creds else map[]
  }

  /** A cache that claims the current identity holds the current contents. */
  ghost predicate CacheTracks(d: Disk, c: Cache) {
    && (c.id.Some? ==> c.creds.Some? && c.id.value < d.nextId)
    && (c.id == Some(d.id) ==>
          d.file.Valid? && (c.creds.value == Sanitize(d.file.creds) || c.creds.value == d.file.creds))
  }

  ghost predicate Inv(s: System, first: FileState) {
    && s.disk.id < s.disk.nextId
    && s.sections.Keys == s.caches.Keys
    && (forall p :: p in s.sections && s.sections[p] != Outside ==> s.lock == Some(p))
    && (forall p :: p in s.sections && s.sections[p].Loaded? ==>
          LoadForMutation(s.disk) == Some(s.sections[p].creds))
    && (forall p :: p in s.caches ==> CacheTracks(s.disk, s.caches[p]))
    && s.disk.file == (if s.log == [] then first else Valid(MutateAll(Contents(first), s.log)))
  }

  /** The contents of a replaced file are the mutations so far and one more. */
  lemma {:induction false} WriteExtendsLog(s: System, p: Pid, m: Mutation, first: FileState)
    requires Inv(s, first) && Enabled(s, Write(p, m))
    ensures Mutate(s.sections[p].creds, m) == MutateAll(Contents(first), s.log + [m])
  {
    assert s.sections[p].creds == Sanitize(Contents(s.disk.file));
    assert (s.log + [m])[..|s.log|] == s.log;
  }

  lemma {:induction false} WriteKeepsInv(s: System, p: Pid, m: Mutation, first: FileState)
    requires Inv(s, first) && Enabled(s, Write(p, m))
    ensures Inv(Step(s, Write(p, m)), first)
  {
    WriteExtendsLog(s, p, m, first);
    hide MutateAll, Mutate, Sanitize, Persists, LoadForMutation;
  }

  lemma {:induction false} TouchKeepsInv(s: System, p: Pid, first: FileState)
    requires Inv(s, first) && Enabled(s, Touch(p))
    ensures Inv(Step(s, Touch(p)), first)
  {
    assert ReadFile(Step(s, Touch(p)).disk) == ReadFile(s.disk);
    hide MutateAll, Mutate, Sanitize, Persists;
  }

  lemma {:induction false} StepKeepsInv(s: System, a: Action, first: FileState)
    requires Inv(s, first) && Enabled(s, a)
    ensures Inv(Step(s, a), first)
  {
    hide MutateAll, Mutate, Persists;
    match a
    case Write(p, m) => WriteKeepsInv(s, p, m, first);
    case Touch(p) => TouchKeepsInv(s, p, first);
    case _ =>
  }

  lemma {:induction false} RunKeepsInv(s: System, acts: seq<Action>, s': System, first: FileState)
    requires Inv(s, first) && Runs(s, acts, s')
    ensures Inv(s', first)
    decreases |acts|
  {
    if acts != [] {
      StepKeepsInv(s, acts[0], first);
      RunKeepsInv(Step(s, acts[0]), acts[1..], s', first);
    }
  }

  /**
   Over every interleaving of any number of processes, including crashes and
   unlocked reads, the file holds exactly the written mutations applied one
   after another in lock order, and it is untouched while none was written.
   */
  lemma {:induction false} MutationsLinearise(s: System, acts: seq<Action>, s': System, first: FileState)
    requires Init(s, first) && Runs(s, acts, s')
    ensures s'.disk.file == (if s'.log == [] then first else Valid(MutateAll(Contents(first), s'.log)))
  {
    RunKeepsInv(s, acts, s', first);
  }

  /** No two processes are inside the locked section, and what one loaded is still the file. */
  lemma {:induction false} LoadedIsCurrent(
      s: System, acts: seq<Action>, s': System, first: FileState, p: Pid, q: Pid)
    requires Init(s, first) && Runs(s, acts, s')
    requires p in s'.sections && s'.sections[p].Loaded?
    ensures LoadForMutation(s'.disk) == Some(s'.sections[p].creds)
    ensures q in s'.sections && s'.sections[q] != Outside ==> q == p
  {
    RunKeepsInv(s, acts, s', first);
  }

  /**
   So a locked section is one step seen from outside: what it writes is its
   mutation of the file as it is at that moment, and everything it decided from
   what it loaded, such as comparing tokens, still holds of that file.
   */
  lemma {:induction false} SectionIsAtomic(
      s: System, acts: seq<Action>, s': System, first: FileState, p: Pid, m: Mutation)
    requires Init(s, first) && Runs(s, acts, s') && Enabled(s', Write(p, m))
    ensures var now := LoadForMutation(s'.disk);
            && now == Some(s'.sections[p].creds)
            && Persists(now.value, m)
            && Step(s', Write(p, m)).disk.file == Valid(Mutate(now.value, m))
  {
    RunKeepsInv(s, acts, s', first);
  }

  /**
   Whenever a process's cache answers "unchanged", the answer is what a fresh
   read of the file would give, provided the entry on disk is one a read keeps.
   */
  lemma {:induction false} CacheAnswerIsCurrent(
      s: System, acts: seq<Action>, s': System, first: FileState, p: Pid, prov: Provider)
    requires Init(s, first) && Runs(s, acts, s') && p in s'.caches
    requires CachedOAuth(s'.disk, s'.caches[p], prov).Unchanged?
    requires OAuthEntry(Contents(s'.disk.file), prov).Some? ==> Readable(Contents(s'.disk.file)[prov])
    ensures CachedOAuth(s'.disk, s'.caches[p], prov).token == DiskOAuth(s'.disk, prov)
  {
    RunKeepsInv(s, acts, s', first);
    assert CacheTracks(s'.disk, s'.caches[p]);
  }

  /**
   The condition is exact for the process that wrote the file. A bundle stored
   with an empty token is served from its cache although a read would drop it.
   */
  lemma {:induction false} OwnWriteAgreesIffReadable(d: Disk, creds: Creds, prov: Provider)
    ensures var d' := Replace(d, creds);
            var answer := CachedOAuth(d', Cache(Some(creds), Some(d'.id)), prov);
            && answer.Unchanged?
            && (answer.token == DiskOAuth(d', prov) <==>
                  (OAuthEntry(creds, prov).Some? ==> Readable(creds[prov])))
  {
  }
}

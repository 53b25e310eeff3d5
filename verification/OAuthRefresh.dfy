/**
 The refresh protocol for one provider: any number of sessions, in any number
 of processes, racing to refresh one rotating token kept in one file.

 A session's reads and writes of the store are single steps because each runs
 inside one store-lock section; the refresh lock has at most one holder. Both
 facts are proved of the lock and store models. The clock only moves forward.
 */
module OAuthRefresh {
  import opened ExclusiveLock
  import opened Options
  import opened OAuthTokens

  type Sid = nat
  type Token = string

  const REFRESH_SKEW_MS := 60_000

  datatype Result =
    | Auth(used: Stored)
    | NoCredential
    | Busy
    | RefreshFailed
    | StoreFailed
    | Aborted

  /** Where a session is in `resolveOAuthModelAuth`. */
  datatype Phase =
    | Idle
    | Waiting(second: bool)
    | Locked
    | Asking(sent: Stored)
    | Answered(sent: Stored, reply: TokenResult)
    | Reporting(sent: Stored)
    | Caught                  // the store failed; the refresh lock is already released
    | Done(result: Result)

  datatype World = World(
    now: int,
    disk: Option<Stored>,
    holder: Option<Sid>,
    sessions: map<Sid, Phase>,
    newest: Token,            // the refresh token the provider issued last
    logins: nat,              // logins with a token not seen before
    family: nat,              // the family of the token the latest login stored
    birth: map<Token, nat>)   // the family of each refresh token: the login it descends from

  datatype Action =
    | Start(sid: Sid)
    | LookFails(sid: Sid)            // the first look cannot read the store
    | TakeLock(sid: Sid)
    | WaitTimesOut(sid: Sid)
    | AbortWait(sid: Sid)
    | ReadStore(sid: Sid)
    | Answer(sid: Sid, body: Body)   // a 200 response arrives
    | Echo(sid: Sid)                 // a provider whose refresh returns what it was given
    | Refuse(sid: Sid)               // an error or timeout before the provider rotates
    | LoseReply(sid: Sid, rotated: Token)
    | Commit(sid: Sid)
    | StoreFails(sid: Sid)           // a locked section times out, or cannot read or write
    | Report(sid: Sid)
    | Recover(sid: Sid, readable: bool)
    | Finish(sid: Sid)
    | Die(sid: Sid)
    | Login(issued: Stored)
    | Logout
    | Tick(ms: nat)

  predicate HoldsLock(p: Phase) {
    p.Locked? || p.Asking? || p.Answered? || p.Reporting?
  }

  predicate Usable(s: Stored) {
    s.access != "" && s.refresh != ""
  }

  ghost predicate Init(w: World) {
    && w.holder == None
    && (forall s :: s in w.sessions ==> w.sessions[s] == Idle)
    && w.logins == 0 && w.family == 0
    && w.newest in w.birth && w.birth[w.newest] == 0
    && (forall t :: t in w.birth ==> w.birth[t] == 0)
    && (w.disk.Some? ==> Usable(w.disk.value) && w.disk.value.refresh == w.newest)
  }

  predicate IsFresh(w: World, t: Token) {
    t != "" && t !in w.birth
  }

  predicate SessionStep(a: Action) {
    !a.Login? && !a.Logout? && !a.Tick?
  }

  predicate Enabled(w: World, a: Action) {
    match a
    case Login(c) => Usable(c)
    case Logout => true
    case Tick(_) => true
    case _ =>
      && a.sid in w.sessions
      && var p := w.sessions[a.sid];
         match a
         case Start(_) => p == Idle
         case LookFails(_) => p == Idle
         case TakeLock(_) => p.Waiting? && w.holder == None
         case WaitTimesOut(_) => p.Waiting?
         case AbortWait(_) => p.Waiting? || p == Locked
         case ReadStore(_) => p == Locked
         case Answer(_, body) =>
           p.Asking? && (body.refresh == "" || body.refresh == p.sent.refresh || IsFresh(w, body.refresh))
         case Echo(_) => p.Asking?
         case Refuse(_) => p.Asking?
         case LoseReply(_, t) => p.Asking? && IsFresh(w, t)
         case Commit(_) => p.Answered?
         case StoreFails(_) => p.Waiting? || p == Locked || p.Answered? || p.Reporting?
         case Report(_) => p.Reporting?
         case Recover(_, _) => p == Caught
         case Finish(_) => p.Done?
         case Die(_) => true
  }

  function Move(w: World, s: Sid, p: Phase): World {
    w.(sessions := w.sessions[s := p])
  }

  /** The provider replaces the token it was sent by `t`. */
  function Rotate(w: World, from: Token, t: Token): World
  {
    if t == from then w
    else w.(newest := t, birth := w.birth[t := if from in w.birth then w.birth[from] else w.family])
  }

  /**
   The look before any lock. The cached answer is the one a read gives, because
   what is stored is always usable.
   */
  function AfterLook(w: World, s: Sid): World {
    Move(w, s,
         if w.disk == None then Done(NoCredential)
         else if w.disk.value.expires > w.now + REFRESH_SKEW_MS then Done(Auth(w.disk.value))
         else Waiting(false))
  }

  /** After a failure of the store: the stored credential, if it can be read and has not expired. */
  function AfterCatch(w: World, s: Sid, readable: bool): World {
    Move(w, s, Done(
      if readable && w.disk.Some? && w.disk.value.expires > w.now then Auth(w.disk.value) else RefreshFailed))
  }

  function AfterWait(w: World, s: Sid, second: bool): World {
    match w.disk
    case Some(latest) =>
      if latest.expires > w.now then Move(w, s, Done(Auth(latest)))
      else if second then Move(w, s, Done(Busy))
      else Move(w, s, Waiting(true))
    case None => Move(w, s, if second then Done(NoCredential) else Waiting(true))
  }

  function AfterRead(w: World, s: Sid): World {
    match w.disk
    case None => Move(w, s, Done(NoCredential))
    case Some(stored) =>
      Move(w, s, if stored.expires > w.now + REFRESH_SKEW_MS then Done(Auth(stored)) else Asking(stored))
  }

  /** Store the reply if the token that was sent is still the stored one. */
  function AfterCommit(w: World, s: Sid, sent: Stored, reply: TokenResult): World {
    var current := w.disk.Some? && w.disk.value.refresh == sent.refresh;
    match reply
    case Complete(c) =>
      if current then
        var saved := ToStored(c, w.disk, w.now);
        Move(w.(disk := Some(saved)), s, Done(Auth(saved)))
      else Move(w, s, Done(if w.disk.Some? then Auth(w.disk.value) else NoCredential))
    case _ =>
      var kept := Kept(reply);
      var w' := if current && kept.Some? then w.(disk := Some(ToStored(kept.value, w.disk, w.now))) else w;
      Move(w', s, Reporting(sent))
  }

  /** After a failed refresh: whatever is stored, if it has not expired. */
  function AfterReport(w: World, s: Sid): World {
    Move(w, s, Done(
      if w.disk == None then NoCredential
      else if w.disk.value.expires > w.now then Auth(w.disk.value)
      else RefreshFailed))
  }

  function Release(w: World, s: Sid): World {
    w.(holder := if w.holder == Some(s) then None else w.holder)
  }

  function Step(w: World, a: Action): World
    requires Enabled(w, a)
  {
    match a
    case Login(c) =>
      if c.refresh in w.birth then w.(disk := Some(c), family := w.birth[c.refresh])
      else
        var family := w.logins + 1;
        w.(disk := Some(c), newest := c.refresh, logins := family, family := family,
           birth := w.birth[c.refresh := family])
    case Logout => w.(disk := None)
    case Tick(ms) => w.(now := w.now + ms)
    case Start(s) => AfterLook(w, s)
    case LookFails(s) => Move(w, s, Done(StoreFailed))
    case TakeLock(s) => Move(w.(holder := Some(s)), s, Locked)
    case WaitTimesOut(s) => AfterWait(w, s, w.sessions[s].second)
    case AbortWait(s) => Move(w, s, Done(Aborted))
    case ReadStore(s) => AfterRead(w, s)
    case Answer(s, body) =>
      var sent := w.sessions[s].sent;
      var w' := if body.refresh == "" then w else Rotate(w, sent.refresh, body.refresh);
      Move(w', s, Answered(sent, ReadRefreshResponse(ToCredential(sent), body, w.now)))
    case Echo(s) =>
      var sent := w.sessions[s].sent;
      Move(w, s, Answered(sent, Complete(ToCredential(sent))))
    case Refuse(s) => Move(w, s, Answered(w.sessions[s].sent, Failed))
    case LoseReply(s, t) =>
      var sent := w.sessions[s].sent;
      Move(Rotate(w, sent.refresh, t), s, Answered(sent, Failed))
    case Commit(s) => AfterCommit(w, s, w.sessions[s].sent, w.sessions[s].reply)
    case StoreFails(s) => Move(Release(w, s), s, Caught)
    case Report(s) => AfterReport(w, s)
    case Recover(s, readable) => AfterCatch(w, s, readable)
    case Finish(s) => Move(Release(w, s), s, Idle)
    case Die(s) => Move(Release(w, s), s, Idle)
  }

  /** What every interleaving keeps, faults, logins and logouts included. */
  ghost predicate Inv(w: World) {
    && (w.disk.Some? ==>
          && Usable(w.disk.value)
          && w.disk.value.refresh in w.birth
          && w.birth[w.disk.value.refresh] == w.family)
    && w.newest in w.birth
    && (forall t :: t in w.birth ==> w.birth[t] <= w.logins)
    && (forall s :: s in w.sessions ==> PhaseInv(w, s, w.sessions[s]))
  }

  ghost predicate PhaseInv(w: World, s: Sid, p: Phase) {
    && (HoldsLock(p) ==> w.holder == Some(s))
    && (p.Asking? || p.Answered? || p.Reporting? ==> Usable(p.sent) && p.sent.refresh in w.birth)
    && (p.Answered? && Kept(p.reply).Some? ==>
          && var c := Kept(p.reply).value;
             && c.access != "" && c.refresh != ""
             && c.refresh in w.birth
             && w.birth[c.refresh] == w.birth[p.sent.refresh])
  }

  ghost predicate Runs(w: World, acts: seq<Action>, w': World)
    decreases |acts|
  {
    if acts == [] then w' == w
    else Enabled(w, acts[0]) && Runs(Step(w, acts[0]), acts[1..], w')
  }

  lemma {:induction false} InitInv(w: World)
    requires Init(w)
    ensures Inv(w)
  {
  }

  lemma {:induction false} AnswerKeepsPhases(w: World, a: Action, s: Sid)
    requires Inv(w) && Enabled(w, a) && a.Answer? && s in Step(w, a).sessions
    ensures PhaseInv(Step(w, a), s, Step(w, a).sessions[s])
  {
    hide ReadRefreshResponse;
    assert PhaseInv(w, s, w.sessions[s]);
    if s == a.sid {
      RotatedTokenIsKept(ToCredential(w.sessions[s].sent), a.body, w.now);
    }
  }

  /** Other sessions do not notice a step that keeps the lock and only adds tokens. */
  lemma {:induction false} PhasesKeepInv(w: World, a: Action, s: Sid)
    requires Inv(w) && Enabled(w, a) && s in Step(w, a).sessions
    ensures PhaseInv(Step(w, a), s, Step(w, a).sessions[s])
  {
    assert PhaseInv(w, s, w.sessions[s]);
    if a.Answer? {
      AnswerKeepsPhases(w, a, s);
    } else if a.Commit? {
      hide ReadRefreshResponse, ToStored, Kept;
    } else {
      hide ReadRefreshResponse, ToStored, Kept, AfterCommit;
    }
  }

  lemma {:induction false} StepKeepsInv(w: World, a: Action)
    requires Inv(w) && Enabled(w, a)
    ensures Inv(Step(w, a))
  {
    var w' := Step(w, a);
    forall s | s in w'.sessions ensures PhaseInv(w', s, w'.sessions[s]) {
      PhasesKeepInv(w, a, s);
    }
    if a.Commit? {
      assert PhaseInv(w, a.sid, w.sessions[a.sid]);
    }
    hide PhaseInv, ReadRefreshResponse;
  }

  lemma {:induction false} RunKeepsInv(w: World, acts: seq<Action>, w': World)
    requires Inv(w) && Runs(w, acts, w')
    ensures Inv(w')
    decreases |acts|
  {
    if acts != [] {
      StepKeepsInv(w, acts[0]);
      RunKeepsInv(Step(w, acts[0]), acts[1..], w');
    }
  }

  /**
   Over every interleaving, with crashes, lost replies, logins and logouts at any
   point, the stored token is of the family of the latest login's: the token that
   login stored, or one that a refresh got for it. A login with a token never seen
   before starts a family of its own, so no refresh that was under way before it
   ever replaces what it stored.
   */
  lemma {:induction false} LoginSurvives(w: World, acts: seq<Action>, w': World)
    requires Init(w) && Runs(w, acts, w') && w'.disk.Some?
    ensures w'.disk.value.refresh in w'.birth
    ensures w'.birth[w'.disk.value.refresh] == w'.family
  {
    InitInv(w);
    RunKeepsInv(w, acts, w');
  }

  /**
   What a refresh with a reply in hand does to a login that happens before it
   commits: nothing to one with a new token. Only pasting again the very token that
   the refresh had sent is overwritten, by what the reply gave for that token.
   */
  lemma {:induction false} LoginOverwrittenIffRepeated(w: World, c: Stored, s: Sid)
    requires Inv(w) && Enabled(w, Login(c)) && s in w.sessions && w.sessions[s].Answered?
    ensures var sent, kept := w.sessions[s].sent, Kept(w.sessions[s].reply);
            var w1 := Step(w, Login(c));
            && Enabled(w1, Commit(s))
            && Step(w1, Commit(s)).disk
               == Some(if c.refresh == sent.refresh && kept.Some? then ToStored(kept.value, Some(c), w.now) else c)
            && (IsFresh(w, c.refresh) ==> Step(w1, Commit(s)).disk == Some(c))
  {
    assert PhaseInv(w, s, w.sessions[s]);
  }

  /** A logout is never undone: until somebody logs in, nothing is stored. */
  lemma {:induction false} LogoutSticks(w: World, acts: seq<Action>, w': World)
    requires Inv(w) && Runs(w, acts, w') && w.disk == None
    requires forall i :: 0 <= i < |acts| ==> !acts[i].Login?
    ensures w'.disk == None
    decreases |acts|
  {
    if acts != [] {
      StepKeepsInv(w, acts[0]);
      LogoutSticks(Step(w, acts[0]), acts[1..], w');
    }
  }

  /**
   The only steps that change a stored credential are a login, a logout, and a
   commit that found the token it had sent; a commit writes what the reply gave
   and keeps the other fields of what it replaces.
   */
  lemma {:induction false} OnlyItsOwnToken(w: World, a: Action)
    requires Inv(w) && Enabled(w, a) && Step(w, a).disk != w.disk
    ensures a.Login? || a.Logout? || a.Commit?
    ensures a.Commit? ==>
              && w.disk.Some?
              && w.disk.value.refresh == w.sessions[a.sid].sent.refresh
              && Kept(w.sessions[a.sid].reply).Some?
              && Step(w, a).disk == Some(ToStored(Kept(w.sessions[a.sid].reply).value, w.disk, w.now))
  {
  }

  /** At most one session is past the lock, so the provider never sees two refreshes at once. */
  lemma {:induction false} OneRefreshAtATime(w: World, acts: seq<Action>, w': World, s: Sid, t: Sid)
    requires Init(w) && Runs(w, acts, w')
    requires s in w'.sessions && t in w'.sessions
    requires HoldsLock(w'.sessions[s]) && HoldsLock(w'.sessions[t])
    ensures s == t
  {
    InitInv(w);
    RunKeepsInv(w, acts, w');
    assert PhaseInv(w', s, w'.sessions[s]) && PhaseInv(w', t, w'.sessions[t]);
  }

  /**
   What a session gets is what is stored at that moment. It has not expired,
   unless it comes from a commit: a provider may hand back the token it was
   given, and a credential stored meanwhile is returned as it is.
   */
  lemma {:induction false} ReturnedIsStored(w: World, a: Action, s: Sid, used: Stored)
    requires Inv(w) && Enabled(w, a) && s in w.sessions && !w.sessions[s].Done?
    requires s in Step(w, a).sessions && Step(w, a).sessions[s] == Done(Auth(used))
    ensures Step(w, a).disk == Some(used)
    ensures used.expires > w.now || a.Commit?
  {
  }

  /** The steps that end a session whatever is stored: it cannot look, or it is told to stop. */
  predicate GivesUp(a: Action) {
    a.LookFails? || a.AbortWait? || (a.Recover? && !a.readable)
  }

  /**
   What a session ends with is decided by what is stored then. With nothing stored
   it gets nothing, or an error after a store failure; with something unexpired,
   that; and with something expired an error, unless its own commit comes first.
   */
  lemma {:induction false} OutcomeIsExact(w: World, a: Action)
    requires Inv(w) && Enabled(w, a) && SessionStep(a) && !GivesUp(a)
    requires !w.sessions[a.sid].Done? && Step(w, a).sessions[a.sid].Done?
    ensures var stored := Step(w, a).disk;
            Step(w, a).sessions[a.sid].result
            == if stored == None then (if a.Recover? then RefreshFailed else NoCredential)
               else if stored.value.expires > w.now || a.Commit? then Auth(stored.value)
               else if a.WaitTimesOut? then Busy else RefreshFailed
  {
  }

  /** Hence no answer without `Auth` while something unexpired is stored, and none at all iff nothing is. */
  lemma {:induction false} RefusedOnlyIfExpired(w0: World, acts: seq<Action>, w: World, a: Action)
    requires Init(w0) && Runs(w0, acts, w)
    requires Enabled(w, a) && SessionStep(a) && !GivesUp(a)
    requires !w.sessions[a.sid].Done? && Step(w, a).sessions[a.sid].Done?
    ensures var stored, result := Step(w, a).disk, Step(w, a).sessions[a.sid].result;
            && (!result.Auth? ==> stored == None || stored.value.expires <= w.now)
            && (!a.Recover? ==> (result == NoCredential <==> stored == None))
  {
    InitInv(w0);
    RunKeepsInv(w0, acts, w);
    OutcomeIsExact(w, a);
  }

  predicate Expired(stored: Option<Stored>, at: int) {
    stored == None || stored.value.expires <= at
  }

  predicate FreshEnough(stored: Option<Stored>, now: int) {
    stored.Some? && stored.value.expires > now + REFRESH_SKEW_MS
  }

  /** When a step ends a session, and what it does instead; what signing in and out store. */
  lemma {:induction false} NextPhase(w: World, a: Action)
    requires Inv(w) && Enabled(w, a)
    ensures a.Start? && !(w.disk == None || FreshEnough(w.disk, w.now)) ==>
              Step(w, a).sessions[a.sid] == Waiting(false)
    ensures a.Start? && (w.disk == None || FreshEnough(w.disk, w.now)) ==> Step(w, a).sessions[a.sid].Done?
    ensures a.WaitTimesOut? ==>
              Step(w, a).sessions[a.sid].Done? == (w.sessions[a.sid].second || !Expired(w.disk, w.now))
    ensures a.WaitTimesOut? && !Step(w, a).sessions[a.sid].Done? ==> Step(w, a).sessions[a.sid] == Waiting(true)
    ensures a.ReadStore? && !(w.disk == None || FreshEnough(w.disk, w.now)) ==>
              Step(w, a).sessions[a.sid] == Asking(w.disk.value)
    ensures a.ReadStore? && (w.disk == None || FreshEnough(w.disk, w.now)) ==> Step(w, a).sessions[a.sid].Done?
    ensures a.Commit? ==> Step(w, a).sessions[a.sid].Done? == w.sessions[a.sid].reply.Complete?
    ensures a.Report? || a.Recover? ==> Step(w, a).sessions[a.sid].Done?
    ensures a.Login? ==> Step(w, a).disk == Some(a.issued)
    ensures a.Logout? ==> Step(w, a).disk == None
  {
  }

  /** The provider is asked only about a credential that expires within the minute. */
  ghost predicate AsksStale(w: World) {
    forall s :: s in w.sessions && w.sessions[s].Asking? ==> w.sessions[s].sent.expires <= w.now + REFRESH_SKEW_MS
  }

  lemma {:induction false} OnlyStaleIsRefreshed(w: World, acts: seq<Action>, w': World)
    requires AsksStale(w) && Runs(w, acts, w')
    ensures AsksStale(w')
    decreases |acts|
  {
    if acts != [] {
      OnlyStaleIsRefreshed(Step(w, acts[0]), acts[1..], w');
    }
  }

  /** From a free lock and a stale credential, three steps lead to asking about it. */
  lemma {:induction false} GetsToAsk(w: World, s: Sid) returns (w': World)
    requires Inv(w) && w.holder == None && s in w.sessions && w.sessions[s] == Idle
    requires w.disk.Some? && !FreshEnough(w.disk, w.now)
    ensures Runs(w, [Start(s), TakeLock(s), ReadStore(s)], w') && Inv(w')
    ensures s in w'.sessions && w'.sessions[s] == Asking(w.disk.value)
    ensures w'.disk == w.disk && w'.now == w.now && w'.birth == w.birth
  {
    var w1 := Step(w, Start(s));
    var w2 := Step(w1, TakeLock(s));
    w' := Step(w2, ReadStore(s));
    StepKeepsInv(w, Start(s));
    StepKeepsInv(w1, TakeLock(s));
    StepKeepsInv(w2, ReadStore(s));
    RunsCons(w2, ReadStore(s), [], w');
    RunsCons(w1, TakeLock(s), [ReadStore(s)], w');
    RunsCons(w, Start(s), [TakeLock(s), ReadStore(s)], w');
    assert [Start(s)] + [TakeLock(s), ReadStore(s)] == [Start(s), TakeLock(s), ReadStore(s)];
    assert [TakeLock(s)] + [ReadStore(s)] == [TakeLock(s), ReadStore(s)] && [ReadStore(s)] + [] == [ReadStore(s)];
  }

  /** The bundle that a complete response leaves: its tokens, its lifetime and account, the other old extras. */
  predicate IsRefreshed(got: Stored, previous: Stored, body: Body, now: int)
    requires HasLifetime(body) && body.accountId.Some?
  {
    && got.access == body.access && got.expires == now + 1000 * body.expiresIn.value && got.savedAt == now
    && got.refresh == (if body.refresh != "" then body.refresh else previous.refresh)
    && got.extras == previous.extras["accountId" := body.accountId.value]
  }

  lemma {:induction false} AnswerIsCommitted(w: World, s: Sid, body: Body) returns (w': World, got: Stored)
    requires Inv(w) && s in w.sessions && w.disk.Some? && w.sessions[s] == Asking(w.disk.value)
    requires body.access != "" && HasLifetime(body) && body.accountId.Some?
    requires body.refresh == "" || body.refresh == w.disk.value.refresh || IsFresh(w, body.refresh)
    ensures Runs(w, [Answer(s, body), Commit(s)], w')
    ensures s in w'.sessions && w'.sessions[s] == Done(Auth(got)) && w'.disk == Some(got)
    ensures IsRefreshed(got, w.disk.value, body, w.now)
  {
    var sent := w.disk.value;
    ResponseIsReadExactly(ToCredential(sent), body, w.now);
    CompleteIsUsable(ToCredential(sent), body, w.now);
    hide ReadRefreshResponse;
    var w4 := Step(w, Answer(s, body));
    w' := Step(w4, Commit(s));
    got := ToStored(w4.sessions[s].reply.credential, w.disk, w.now);
    RunsCons(w4, Commit(s), [], w');
    RunsCons(w, Answer(s, body), [Commit(s)], w');
    assert [Answer(s, body)] + [Commit(s)] == [Answer(s, body), Commit(s)] && [Commit(s)] + [] == [Commit(s)];
  }

  lemma {:induction false} RunsCons(w: World, a: Action, rest: seq<Action>, w': World)
    requires Enabled(w, a) && Runs(Step(w, a), rest, w')
    ensures Runs(w, [a] + rest, w')
  {
    assert ([a] + rest)[1..] == rest;
  }

  lemma {:induction false} RunsConcat(w: World, a: seq<Action>, w1: World, b: seq<Action>, w2: World)
    requires Runs(w, a, w1) && Runs(w1, b, w2)
    ensures Runs(w, a + b, w2)
    decreases |a|
  {
    if a == [] {
      assert a + b == b;
    } else {
      RunsConcat(Step(w, a[0]), a[1..], w1, b, w2);
      assert (a + b)[1..] == a[1..] + b;
    }
  }

  /**
   A whole run: a session that finds the lock free and a stale credential, and whose
   refresh is answered completely, stores what the reply gave and gets just that.
   */
  lemma {:induction false} LoneRefreshSucceeds(w: World, s: Sid, body: Body) returns (w': World, got: Stored)
    requires Inv(w) && w.holder == None && s in w.sessions && w.sessions[s] == Idle
    requires w.disk.Some? && !FreshEnough(w.disk, w.now)
    requires body.access != "" && HasLifetime(body) && body.accountId.Some?
    requires body.refresh == "" || body.refresh == w.disk.value.refresh || IsFresh(w, body.refresh)
    ensures Runs(w, [Start(s), TakeLock(s), ReadStore(s)] + [Answer(s, body), Commit(s)], w')
    ensures s in w'.sessions && w'.sessions[s] == Done(Auth(got)) && w'.disk == Some(got)
    ensures IsRefreshed(got, w.disk.value, body, w.now)
  {
    hide Runs, Inv, IsRefreshed;
    var w3 := GetsToAsk(w, s);
    w', got := AnswerIsCommitted(w3, s, body);
    RunsConcat(w, [Start(s), TakeLock(s), ReadStore(s)], w3, [Answer(s, body), Commit(s)], w');
  }

  // ------------------------------------------------------------------
  // The refresh lock
  // ------------------------------------------------------------------

  /** What an action does to the lock. */
  function LockEventOf(w: World, a: Action): seq<LockEvent<Sid>>
    requires Enabled(w, a)
  {
    if a.TakeLock? then [Take(a.sid)]
    else if (a.Finish? || a.Die? || a.StoreFails?) && w.holder == Some(a.sid) then [GiveUp(a.sid)]
    else []
  }

  function LockTrace(w: World, acts: seq<Action>): seq<LockEvent<Sid>>
    decreases |acts|
  {
    if acts == [] || !Enabled(w, acts[0]) then []
    else LockEventOf(w, acts[0]) + LockTrace(Step(w, acts[0]), acts[1..])
  }

  /** The protocol takes the lock only while it is free and only its holder gives it up. */
  lemma {:induction false} UsesTheLock(w: World, acts: seq<Action>, w': World)
    requires Runs(w, acts, w')
    ensures LockRun(w.holder, LockTrace(w, acts), w'.holder)
    decreases |acts|
  {
    if acts != [] {
      UsesTheLock(Step(w, acts[0]), acts[1..], w');
      assert LockRun(w.holder, LockEventOf(w, acts[0]), Step(w, acts[0]).holder);
      LockRunAppend(w.holder, LockEventOf(w, acts[0]), Step(w, acts[0]).holder,
                    LockTrace(Step(w, acts[0]), acts[1..]), w'.holder);
    }
  }

  // ------------------------------------------------------------------
  // Runs in which nothing the provider issued is lost
  // ------------------------------------------------------------------

  /**
   A reply in hand holds nothing that is not stored already: no token arrived, or
   the refresh token is the one that was sent.
   */
  predicate NothingNew(p: Phase) {
    p.Answered? ==> Kept(p.reply) == None || Kept(p.reply).value.refresh == p.sent.refresh
  }

  /**
   Nothing the provider issued is lost: no reply gets lost, no login or logout
   intervenes, and no session dies or fails to write while it has a new token in
   hand. Deaths and failures of the store at any other moment are allowed.
   */
  predicate Faultless(w: World, a: Action) {
    && !a.Login? && !a.Logout? && !a.LoseReply?
    && ((a.Die? || a.StoreFails?) && a.sid in w.sessions ==> NothingNew(w.sessions[a.sid]))
  }

  ghost predicate FaultlessRun(w: World, acts: seq<Action>)
    decreases |acts|
  {
    acts == [] || (Faultless(w, acts[0]) && (Enabled(w, acts[0]) ==> FaultlessRun(Step(w, acts[0]), acts[1..])))
  }

  /** The token the provider will next accept is stored, or in the hands of the lock holder. */
  ghost predicate Current(w: World) {
    && (w.disk.Some? && (w.holder == None || w.holder.value !in w.sessions
                         || !w.sessions[w.holder.value].Answered?) ==>
          w.disk.value.refresh == w.newest)
    && (forall s :: s in w.sessions ==> PhaseCurrent(w, w.sessions[s]))
  }

  ghost predicate PhaseCurrent(w: World, p: Phase) {
    && (p.Asking? || p.Answered? ==> w.disk.Some? && w.disk.value.refresh == p.sent.refresh)
    && (p.Asking? ==> w.newest == p.sent.refresh)
    && (p.Answered? ==>
          w.newest == match Kept(p.reply) case Some(c) => c.refresh case None => p.sent.refresh)
  }

  lemma {:induction false} AnswerKeepsCurrent(w: World, a: Action)
    requires Inv(w) && Current(w) && Enabled(w, a) && (a.Answer? || a.Echo? || a.Refuse?)
    ensures Current(Step(w, a))
  {
    hide ReadRefreshResponse;
    assert PhaseInv(w, a.sid, w.sessions[a.sid]) && PhaseCurrent(w, w.sessions[a.sid]);
    if a.Answer? {
      RotatedTokenIsKept(ToCredential(w.sessions[a.sid].sent), a.body, w.now);
    }
    forall s | s in Step(w, a).sessions ensures PhaseCurrent(Step(w, a), Step(w, a).sessions[s]) {
      assert PhaseInv(w, s, w.sessions[s]) && PhaseCurrent(w, w.sessions[s]);
    }
  }

  lemma {:induction false} CommitKeepsCurrent(w: World, a: Action)
    requires Inv(w) && Current(w) && Enabled(w, a) && a.Commit?
    ensures Current(Step(w, a))
  {
    assert PhaseInv(w, a.sid, w.sessions[a.sid]) && PhaseCurrent(w, w.sessions[a.sid]);
    forall s | s in Step(w, a).sessions ensures PhaseCurrent(Step(w, a), Step(w, a).sessions[s]) {
      assert PhaseInv(w, s, w.sessions[s]) && PhaseCurrent(w, w.sessions[s]);
    }
  }

  lemma {:induction false} QuietKeepsCurrent(w: World, a: Action)
    requires Inv(w) && Current(w) && Enabled(w, a) && Faultless(w, a)
    requires !a.Answer? && !a.Echo? && !a.Refuse? && !a.Commit?
    ensures Current(Step(w, a))
  {
    hide Kept, ToStored;
    if SessionStep(a) {
      assert PhaseInv(w, a.sid, w.sessions[a.sid]) && PhaseCurrent(w, w.sessions[a.sid]);
    }
    forall s | s in Step(w, a).sessions ensures PhaseCurrent(Step(w, a), Step(w, a).sessions[s]) {
      assert PhaseInv(w, s, w.sessions[s]) && PhaseCurrent(w, w.sessions[s]);
    }
  }

  lemma {:induction false} StepKeepsCurrent(w: World, a: Action)
    requires Inv(w) && Current(w) && Enabled(w, a) && Faultless(w, a)
    ensures Current(Step(w, a))
  {
    hide Current, Inv, Step;
    if a.Answer? || a.Echo? || a.Refuse? {
      AnswerKeepsCurrent(w, a);
    } else if a.Commit? {
      CommitKeepsCurrent(w, a);
    } else {
      QuietKeepsCurrent(w, a);
    }
  }

  /** The exception is exact: a death or a failure of the store loses the newest token iff it was in hand. */
  lemma {:induction false} NewestSurvivesIff(w: World, a: Action)
    requires Inv(w) && Current(w) && Enabled(w, a) && (a.Die? || a.StoreFails?)
    ensures Current(Step(w, a)) <==> NothingNew(w.sessions[a.sid])
    ensures !NothingNew(w.sessions[a.sid]) ==>
              Step(w, a).holder == None && Step(w, a).disk.Some? && Step(w, a).disk.value.refresh != Step(w, a).newest
  {
    assert PhaseInv(w, a.sid, w.sessions[a.sid]) && PhaseCurrent(w, w.sessions[a.sid]);
    if NothingNew(w.sessions[a.sid]) {
      StepKeepsCurrent(w, a);
    }
  }

  lemma {:induction false} RunKeepsCurrent(w: World, acts: seq<Action>, w': World)
    requires Inv(w) && Current(w) && Runs(w, acts, w')
    requires FaultlessRun(w, acts)
    ensures Inv(w') && Current(w')
    decreases |acts|
  {
    if acts != [] {
      StepKeepsInv(w, acts[0]);
      StepKeepsCurrent(w, acts[0]);
      RunKeepsCurrent(Step(w, acts[0]), acts[1..], w');
    }
  }

  /**
   Over every interleaving of any number of sessions, whenever nobody holds the
   refresh lock the stored refresh token is the newest one the provider issued,
   malformed responses, deaths and store failures included; and whoever is asking
   the provider presents exactly that token, so a replaced token is never presented
   again.
   */
  lemma {:induction false} NewestTokenIsStored(w: World, acts: seq<Action>, w': World)
    requires Init(w) && Runs(w, acts, w')
    requires FaultlessRun(w, acts)
    ensures w'.holder == None && w'.disk.Some? ==> w'.disk.value.refresh == w'.newest
    ensures forall s :: s in w'.sessions && w'.sessions[s].Asking? ==> w'.sessions[s].sent.refresh == w'.newest
    ensures w.disk.Some? ==> w'.disk.Some?
  {
    InitInv(w);
    RunKeepsCurrent(w, acts, w');
    if w.disk.Some? {
      StaysStored(w, acts, w');
    }
    forall s | s in w'.sessions && w'.sessions[s].Asking?
      ensures w'.sessions[s].sent.refresh == w'.newest
    {
      assert PhaseCurrent(w', w'.sessions[s]);
    }
  }

  lemma {:induction false} StaysStored(w: World, acts: seq<Action>, w': World)
    requires Inv(w) && Runs(w, acts, w') && w.disk.Some?
    requires FaultlessRun(w, acts)
    ensures w'.disk.Some?
    decreases |acts|
  {
    if acts != [] {
      StepKeepsInv(w, acts[0]);
      StaysStored(Step(w, acts[0]), acts[1..], w');
    }
  }
}

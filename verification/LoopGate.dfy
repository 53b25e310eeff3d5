/**
 The circuit breaker that stops a session from repeating a call, and its
 reconstruction from the session log on resume.
 */
module LoopGate {
  import opened Options

  const DEFAULT_LOOP_THRESHOLD := 3

  /**
   A tool call with the keys computed from it: the tool with the JSON of all its
   arguments, and the tool with the command or path it is aimed at. `exempt` says
   whether it only reads.
   */
  datatype Call = Call(tool: string, argsKey: string, baseKey: string, exempt: bool)

  type Hits = map<string, nat>

  datatype Gate = Gate(argHits: Hits, errorHits: Hits, noted: set<string>, notes: seq<string>, threshold: int)

  function NewGate(threshold: int): Gate {
    Gate(map[], map[], {}, [], threshold)
  }

  function Count(h: Hits, k: string): nat {
    if k in h then h[k] else 0
  }

  function Bump(h: Hits, k: string): Hits {
    h[k := Count(h, k) + 1]
  }

  /** The text of a block's error and note. The fixed words after the tool name are left out. */
  function LoopError(tool: string): string {
    "Circuit breaker: " + tool
  }

  /** Whether the gate would refuse this call if it were made now. */
  predicate Blocks(g: Gate, c: Call) {
    !c.exempt && (Count(g.argHits, c.argsKey) + 1 >= g.threshold || Count(g.errorHits, c.baseKey) >= g.threshold - 1)
  }

  function Note(g: Gate, key: string, text: string): Gate {
    if key in g.noted then g else g.(noted := g.noted + {key}, notes := g.notes + [text])
  }

  function AfterPre(g: Gate, c: Call): Gate {
    if c.exempt then g
    else
      var h := g.(argHits := Bump(g.argHits, c.argsKey));
      if !Blocks(g, c) then h
      else Note(h, if Count(h.argHits, c.argsKey) >= g.threshold then c.argsKey else c.baseKey, LoopError(c.tool))
  }

  function AfterPost(g: Gate, c: Call, isError: bool): Gate {
    if !isError || c.exempt then g else g.(errorHits := Bump(g.errorHits, c.baseKey))
  }

  // ------------------------------------------------------------------
  // What has been observed
  // ------------------------------------------------------------------

  /** An observation: a call about to be made, or one that ended. */
  datatype Use = Pre(call: Call) | Post(call: Call, isError: bool)

  /** How many calls with these arguments have been observed, leaving out those that only read. */
  function Calls(us: seq<Use>, argsKey: string): nat
    decreases |us|
  {
    if us == [] then 0
    else
      var u := us[|us| - 1];
      Calls(us[..|us| - 1], argsKey) + if u.Pre? && !u.call.exempt && u.call.argsKey == argsKey then 1 else 0
  }

  /** How many calls with this target have failed, leaving out those that only read. */
  function Failures(us: seq<Use>, baseKey: string): nat
    decreases |us|
  {
    if us == [] then 0
    else
      var u := us[|us| - 1];
      Failures(us[..|us| - 1], baseKey)
      + if u.Post? && u.isError && !u.call.exempt && u.call.baseKey == baseKey then 1 else 0
  }

  /** The rule of the breaker, on what was observed before the call. */
  predicate Refused(threshold: int, us: seq<Use>, c: Call) {
    !c.exempt && (Calls(us, c.argsKey) >= threshold - 1 || Failures(us, c.baseKey) >= threshold - 1)
  }

  /** The counters of a gate are the counts of what it observed. */
  ghost predicate Counts(g: Gate, us: seq<Use>) {
    forall k :: Count(g.argHits, k) == Calls(us, k) && Count(g.errorHits, k) == Failures(us, k)
  }

  // ------------------------------------------------------------------
  // The object
  // ------------------------------------------------------------------

  /** A log event as the reconstruction sees it. `ok` is the result's flag, if it has one. */
  datatype LogEvent =
    | ToolCall(call: Call)
    | ToolResult(ok: Option<bool>)
    | CircuitNote(text: string)
    | OtherEvent

  class LoopGate {
    var argHits: Hits
    var errorHits: Hits
    var noted: set<string>
    var noteList: seq<string>
    const threshold: int
    ghost var uses: seq<Use>

    function Value(): Gate
      reads this
    {
      Gate(argHits, errorHits, noted, noteList, threshold)
    }

    ghost predicate Valid()
      reads this
    {
      Counts(Value(), uses)
    }

    constructor (threshold: int)
      ensures Valid() && uses == []
      ensures Value() == NewGate(threshold)
    {
      argHits, errorHits, noted, noteList := map[], map[], {}, [];
      this.threshold := threshold;
      uses := [];
    }

    /** Returns whether the call is blocked, and the note to log if it is the first of its key. */
    method ObservePre(c: Call) returns (blocked: bool, firstNote: Option<string>)
      requires Valid()
      modifies this
      ensures Valid() && uses == old(uses) + [Pre(c)]
      ensures Value() == AfterPre(old(Value()), c)
      ensures blocked <==> Refused(threshold, old(uses), c)
      ensures firstNote == if noteList == old(noteList) then None else Some(LoopError(c.tool))
      ensures firstNote.Some? ==> noteList == old(noteList) + [firstNote.value]
    {
      uses := uses + [Pre(c)];
      if c.exempt {
        return false, None;
      }
      var next := Count(argHits, c.argsKey) + 1;
      argHits := argHits[c.argsKey := next];
      var errors := Count(errorHits, c.baseKey);
      if next >= threshold || errors >= threshold - 1 {
        var key := if next >= threshold then c.argsKey else c.baseKey;
        if key !in noted {
          noted := noted + {key};
          noteList := noteList + [LoopError(c.tool)];
          return true, Some(LoopError(c.tool));
        }
        return true, None;
      }
      return false, None;
    }

    method ObservePost(c: Call, isError: bool)
      requires Valid()
      modifies this
      ensures Valid() && uses == old(uses) + [Post(c, isError)]
      ensures Value() == AfterPost(old(Value()), c, isError)
    {
      uses := uses + [Post(c, isError)];
      if !isError || c.exempt {
        return;
      }
      errorHits := errorHits[c.baseKey := Count(errorHits, c.baseKey) + 1];
    }

    method ObservePreSilent(c: Call)
      requires Valid()
      modifies this
      ensures Valid() && uses == old(uses) + [Pre(c)]
      ensures Value() == SilentPre(old(Value()), c)
    {
      uses := uses + [Pre(c)];
      if c.exempt {
        return;
      }
      argHits := argHits[c.argsKey := Count(argHits, c.argsKey) + 1];
    }

    method AdoptNote(text: string)
      requires Valid()
      modifies this
      ensures Valid() && uses == old(uses)
      ensures Value() == Adopt(old(Value()), text)
    {
      if text in noteList {
        return;
      }
      noteList := noteList + [text];
      noted := noted + {text};
    }
  }

  function SilentPre(g: Gate, c: Call): Gate {
    if c.exempt then g else g.(argHits := Bump(g.argHits, c.argsKey))
  }

  function Adopt(g: Gate, text: string): Gate {
    if text in g.notes then g else g.(notes := g.notes + [text], noted := g.noted + {text})
  }

  datatype Rebuild = Rebuild(gate: Gate, lastCall: Option<Call>)

  function RebuildStep(r: Rebuild, e: LogEvent): Rebuild {
    match e
    case ToolCall(c) => Rebuild(SilentPre(r.gate, c), Some(c))
    case ToolResult(ok) =>
      if r.lastCall == None then r
      else r.(gate := AfterPost(r.gate, r.lastCall.value, ok == Some(false)))
    case CircuitNote(text) => if text == "" then r else r.(gate := Adopt(r.gate, text))
    case OtherEvent => r
  }

  function RebuildAll(r: Rebuild, es: seq<LogEvent>): Rebuild
    decreases |es|
  {
    if es == [] then r else RebuildStep(RebuildAll(r, es[..|es| - 1]), es[|es| - 1])
  }

  /** The last call logged. */
  function LastCall(es: seq<LogEvent>): Option<Call>
    decreases |es|
  {
    if es == [] then None
    else match es[|es| - 1]
      case ToolCall(c) => Some(c)
      case _ => LastCall(es[..|es| - 1])
  }

  /** The observations a log stands for: a result is that of the last call logged before it. */
  function UsesOf(es: seq<LogEvent>): seq<Use>
    decreases |es|
  {
    if es == [] then []
    else
      var before := es[..|es| - 1];
      UsesOf(before) + match es[|es| - 1]
                       case ToolCall(c) => [Pre(c)]
                       case ToolResult(ok) =>
                         if LastCall(before) == None then [] else [Post(LastCall(before).value, ok == Some(false))]
                       case _ => []
  }

  /** `LoopGate.fromEvents`. */
  method FromEvents(es: seq<LogEvent>, threshold: int) returns (gate: LoopGate)
    ensures fresh(gate) && gate.Valid() && gate.threshold == threshold && gate.uses == UsesOf(es)
    ensures gate.Value() == RebuildAll(Rebuild(NewGate(threshold), None), es).gate
  {
    gate := new LoopGate(threshold);
    var lastCall: Option<Call> := None;
    for i := 0 to |es|
      invariant fresh(gate) && gate.Valid() && gate.threshold == threshold && gate.uses == UsesOf(es[..i])
      invariant lastCall == LastCall(es[..i])
      invariant Rebuild(gate.Value(), lastCall) == RebuildAll(Rebuild(NewGate(threshold), None), es[..i])
    {
      assert es[..i + 1][..i] == es[..i];
      match es[i] {
        case ToolCall(c) =>
          lastCall := Some(c);
          gate.ObservePreSilent(c);
        case ToolResult(ok) =>
          if lastCall.Some? {
            gate.ObservePost(lastCall.value, ok == Some(false));
          }
        case CircuitNote(text) =>
          if text != "" {
            gate.AdoptNote(text);
          }
        case OtherEvent =>
      }
    }
    assert es[..|es|] == es;
  }

  // ------------------------------------------------------------------
  // A live run and its log
  // ------------------------------------------------------------------

  /**
   One call of a batch, as the gate sees it and as it is logged: secrets in the
   arguments are redacted before the call is logged, which can change every key.
   `reaches` is false when an earlier check refused it; `fails` is how it ends if
   it runs; `ok` is the flag of its logged result.
   */
  datatype Attempt = Attempt(call: Call, logged: Call, reaches: bool, fails: bool, ok: Option<bool>)

  /** Calls run concurrently: each is observed before it runs and, if it ran, after. */
  datatype Move = PreOf(i: nat) | PostOf(i: nat)

  /** The calls a model asked for at once, the order of the observations, and the notes logged. */
  datatype Batch = Batch(attempts: seq<Attempt>, moves: seq<Move>, notes: seq<string>)

  /** A batch under way: the calls observed, those let through, those that ended. */
  datatype Underway = Underway(gate: Gate, seen: set<nat>, ran: set<nat>, ended: set<nat>)

  predicate CanMove(b: seq<Attempt>, u: Underway, m: Move) {
    m.i < |b| && match m
                 case PreOf(i) => i !in u.seen
                 case PostOf(i) => i in u.ran && i !in u.ended
  }

  function Moved(b: seq<Attempt>, u: Underway, m: Move): Underway
    requires CanMove(b, u, m)
  {
    var a := b[m.i];
    match m
    case PreOf(i) =>
      if !a.reaches then u.(seen := u.seen + {i})
      else
        var ran := if Blocks(u.gate, a.call) then u.ran else u.ran + {i};
        Underway(AfterPre(u.gate, a.call), u.seen + {i}, ran, u.ended)
    case PostOf(i) => u.(gate := AfterPost(u.gate, a.call, a.fails), ended := u.ended + {i})
  }

  function Play(b: seq<Attempt>, u: Underway, moves: seq<Move>): Option<Underway>
    decreases |moves|
  {
    if moves == [] then Some(u)
    else if CanMove(b, u, moves[0]) then Play(b, Moved(b, u, moves[0]), moves[1..]) else None
  }

  /** The gate after the whole batch, if the moves are those of one. */
  function LiveBatch(g: Gate, b: Batch): Option<Gate> {
    match Play(b.attempts, Underway(g, {}, {}, {}), b.moves)
    case None => None
    case Some(u) =>
      if (forall i :: 0 <= i < |b.attempts| ==> i in u.seen) && u.ended == u.ran then Some(u.gate) else None
  }

  /** All calls are logged first, then the notes of those blocked, then all results. */
  function LogOf(b: Batch): seq<LogEvent> {
    CallEvents(b.attempts) + NoteEvents(b.notes) + ResultEvents(b.attempts)
  }

  function CallEvents(b: seq<Attempt>): seq<LogEvent> {
    seq(|b|, i requires 0 <= i < |b| => ToolCall(b[i].logged))
  }

  function NoteEvents(notes: seq<string>): seq<LogEvent> {
    seq(|notes|, i requires 0 <= i < |notes| => CircuitNote(notes[i]))
  }

  function ResultEvents(b: seq<Attempt>): seq<LogEvent> {
    seq(|b|, i requires 0 <= i < |b| => ToolResult(b[i].ok))
  }

  /** A call that failed is logged as such; nothing is asked of one that did not. */
  predicate Logged(b: seq<Attempt>) {
    forall i :: 0 <= i < |b| && b[i].fails ==> b[i].ok == Some(false)
  }

  /** Whatever can fail is charged where the rebuilt gate charges it: to the last call as it is logged. */
  predicate ChargedRightly(b: seq<Attempt>) {
    forall i :: 0 <= i < |b| && b[i].reaches && b[i].fails && !b[i].call.exempt ==>
      !b[|b| - 1].logged.exempt && b[|b| - 1].logged.baseKey == b[i].call.baseKey
  }

  /** Every key is logged at least as often as the gate counts it. */
  ghost predicate KeysLogged(b: seq<Attempt>) {
    forall k :: |Asked(b, Below(|b|), k)| <= |Called(b, |b|, k)|
  }

  /** Nothing that reaches the gate is redacted. */
  predicate Verbatim(b: seq<Attempt>) {
    forall i :: 0 <= i < |b| && b[i].reaches ==> b[i].logged == b[i].call
  }

  // ------------------------------------------------------------------
  // What a batch does to the live counters
  // ------------------------------------------------------------------

  /** The calls among `s` that count towards an argument key. */
  function Asked(b: seq<Attempt>, s: set<nat>, k: string): set<nat> {
    set i | i in s && i < |b| && b[i].reaches && !b[i].call.exempt && b[i].call.argsKey == k
  }

  /** The calls among `s` that count towards an error key. */
  function Failed(b: seq<Attempt>, s: set<nat>, k: string): set<nat> {
    set i | i in s && i < |b| && b[i].fails && !b[i].call.exempt && b[i].call.baseKey == k
  }

  ghost predicate Counted(b: seq<Attempt>, g: Gate, u: Underway) {
    && u.gate.threshold == g.threshold
    && u.ended <= u.ran
    && (forall i :: i in u.ran ==> i < |b| && b[i].reaches)
    && (forall k :: Count(u.gate.argHits, k) == Count(g.argHits, k) + |Asked(b, u.seen, k)|)
    && (forall k :: Count(u.gate.errorHits, k) == Count(g.errorHits, k) + |Failed(b, u.ended, k)|)
  }

  lemma {:induction false} AskedOneMore(b: seq<Attempt>, s: set<nat>, i: nat, k: string)
    requires i !in s && i < |b|
    ensures |Asked(b, s + {i}, k)|
            == |Asked(b, s, k)| + if b[i].reaches && !b[i].call.exempt && b[i].call.argsKey == k then 1 else 0
  {
    if b[i].reaches && !b[i].call.exempt && b[i].call.argsKey == k {
      assert Asked(b, s + {i}, k) == Asked(b, s, k) + {i};
    } else {
      assert Asked(b, s + {i}, k) == Asked(b, s, k);
    }
  }

  lemma {:induction false} FailedOneMore(b: seq<Attempt>, s: set<nat>, i: nat, k: string)
    requires i !in s && i < |b|
    ensures |Failed(b, s + {i}, k)|
            == |Failed(b, s, k)| + if b[i].fails && !b[i].call.exempt && b[i].call.baseKey == k then 1 else 0
  {
    if b[i].fails && !b[i].call.exempt && b[i].call.baseKey == k {
      assert Failed(b, s + {i}, k) == Failed(b, s, k) + {i};
    } else {
      assert Failed(b, s + {i}, k) == Failed(b, s, k);
    }
  }

  /** What one observation does to the counters. */
  lemma {:induction false} PreCounts(g: Gate, c: Call, k: string)
    ensures AfterPre(g, c).threshold == g.threshold && AfterPre(g, c).errorHits == g.errorHits
    ensures Count(AfterPre(g, c).argHits, k) == Count(g.argHits, k) + if !c.exempt && k == c.argsKey then 1 else 0
    ensures SilentPre(g, c).argHits == AfterPre(g, c).argHits
    ensures SilentPre(g, c).errorHits == g.errorHits && SilentPre(g, c).threshold == g.threshold
  {
  }

  lemma {:induction false} PostCounts(g: Gate, c: Call, e: bool, k: string)
    ensures AfterPost(g, c, e).threshold == g.threshold && AfterPost(g, c, e).argHits == g.argHits
    ensures Count(AfterPost(g, c, e).errorHits, k)
            == Count(g.errorHits, k) + if e && !c.exempt && k == c.baseKey then 1 else 0
  {
  }

  lemma {:induction false} PreMoveCounts(b: seq<Attempt>, g: Gate, u: Underway, i: nat)
    requires Counted(b, g, u) && CanMove(b, u, PreOf(i))
    ensures Counted(b, g, Moved(b, u, PreOf(i)))
  {
    var u' := Moved(b, u, PreOf(i));
    PreCounts(u.gate, b[i].call, "");
    hide AfterPre, Asked, Failed, Blocks;
    forall k
      ensures Count(u'.gate.argHits, k) == Count(g.argHits, k) + |Asked(b, u'.seen, k)|
    {
      PreCounts(u.gate, b[i].call, k);
      AskedOneMore(b, u.seen, i, k);
    }
  }

  lemma {:induction false} PostMoveCounts(b: seq<Attempt>, g: Gate, u: Underway, i: nat)
    requires Counted(b, g, u) && CanMove(b, u, PostOf(i))
    ensures Counted(b, g, Moved(b, u, PostOf(i)))
  {
    var u' := Moved(b, u, PostOf(i));
    PostCounts(u.gate, b[i].call, b[i].fails, "");
    hide AfterPost, Asked, Failed;
    forall k
      ensures Count(u'.gate.errorHits, k) == Count(g.errorHits, k) + |Failed(b, u'.ended, k)|
    {
      PostCounts(u.gate, b[i].call, b[i].fails, k);
      FailedOneMore(b, u.ended, i, k);
    }
  }

  lemma {:induction false} MoveCounts(b: seq<Attempt>, g: Gate, u: Underway, m: Move)
    requires Counted(b, g, u) && CanMove(b, u, m)
    ensures Counted(b, g, Moved(b, u, m))
  {
    hide Counted, CanMove, Moved;
    match m
    case PreOf(i) => PreMoveCounts(b, g, u, i);
    case PostOf(i) => PostMoveCounts(b, g, u, i);
  }

  lemma {:induction false} PlayCounts(b: seq<Attempt>, g: Gate, u: Underway, moves: seq<Move>)
    requires Counted(b, g, u) && Play(b, u, moves).Some?
    ensures Counted(b, g, Play(b, u, moves).value)
    decreases |moves|
  {
    if moves != [] {
      MoveCounts(b, g, u, moves[0]);
      PlayCounts(b, g, Moved(b, u, moves[0]), moves[1..]);
    }
  }

  /** The live gate after a batch: every call that got there is counted once, every failure that ran. */
  lemma {:induction false} LiveCounts(g: Gate, b: Batch) returns (u: Underway)
    requires LiveBatch(g, b).Some?
    ensures u.gate == LiveBatch(g, b).value && Counted(b.attempts, g, u)
    ensures u.ended == u.ran
  {
    var start := Underway(g, {}, {}, {});
    assert forall k :: Asked(b.attempts, {}, k) == {} && Failed(b.attempts, {}, k) == {};
    assert Counted(b.attempts, g, start);
    PlayCounts(b.attempts, g, start, b.moves);
    u := Play(b.attempts, start, b.moves).value;
  }

  // ------------------------------------------------------------------
  // What its log does to the rebuilt counters
  // ------------------------------------------------------------------

  lemma {:induction false} RebuildConcat(r: Rebuild, a: seq<LogEvent>, b: seq<LogEvent>)
    ensures RebuildAll(r, a + b) == RebuildAll(RebuildAll(r, a), b)
    decreases |b|
  {
    if b == [] {
      assert a + b == a;
    } else {
      RebuildConcat(r, a, b[..|b| - 1]);
      assert (a + b)[..|a + b| - 1] == a + b[..|b| - 1];
    }
  }

  predicate CountsFor(a: Attempt, k: string) {
    !a.logged.exempt && a.logged.argsKey == k
  }

  /** The first `m` calls of a batch that count towards an argument key, refused or not. */
  function Called(b: seq<Attempt>, m: nat, k: string): (s: set<nat>)
    requires m <= |b|
    ensures forall i :: i in s <==> 0 <= i < m && CountsFor(b[i], k)
  {
    if m == 0 then {} else Called(b, m - 1, k) + if CountsFor(b[m - 1], k) then {m - 1} else {}
  }

  predicate LoggedFailure(a: Attempt) {
    a.ok == Some(false)
  }

  /** The first `m` calls whose results are logged as failures. */
  function LoggedFailures(b: seq<Attempt>, m: nat): (s: set<nat>)
    requires m <= |b|
    ensures forall i :: i in s <==> 0 <= i < m && LoggedFailure(b[i])
  {
    if m == 0 then {} else LoggedFailures(b, m - 1) + if LoggedFailure(b[m - 1]) then {m - 1} else {}
  }

  lemma {:induction false} CalledOneMore(b: seq<Attempt>, m: nat, k: string)
    requires m < |b|
    ensures |Called(b, m + 1, k)| == |Called(b, m, k)| + if CountsFor(b[m], k) then 1 else 0
  {
    assert m !in Called(b, m, k);
  }

  lemma {:induction false} LoggedOneMore(b: seq<Attempt>, m: nat)
    requires m < |b|
    ensures |LoggedFailures(b, m + 1)| == |LoggedFailures(b, m)| + if LoggedFailure(b[m]) then 1 else 0
  {
    assert m !in LoggedFailures(b, m);
  }

  lemma {:induction false} RebuildCalls(r: Rebuild, b: seq<Attempt>, m: nat, k: string)
    requires m <= |b|
    ensures var r' := RebuildAll(r, CallEvents(b)[..m]);
            && r'.gate.threshold == r.gate.threshold && r'.gate.errorHits == r.gate.errorHits
            && Count(r'.gate.argHits, k) == Count(r.gate.argHits, k) + |Called(b, m, k)|
            && (m > 0 ==> r'.lastCall == Some(b[m - 1].logged))
    decreases m
  {
    hide SilentPre, Called;
    if m > 0 {
      RebuildCalls(r, b, m - 1, k);
      CalledOneMore(b, m - 1, k);
      assert CallEvents(b)[..m][..m - 1] == CallEvents(b)[..m - 1];
      PreCounts(RebuildAll(r, CallEvents(b)[..m - 1]).gate, b[m - 1].logged, k);
    }
  }

  lemma {:induction false} RebuildNotes(r: Rebuild, notes: seq<string>)
    ensures var r' := RebuildAll(r, NoteEvents(notes));
            && r'.gate.threshold == r.gate.threshold && r'.lastCall == r.lastCall
            && r'.gate.argHits == r.gate.argHits && r'.gate.errorHits == r.gate.errorHits
    decreases |notes|
  {
    if notes != [] {
      RebuildNotes(r, notes[..|notes| - 1]);
      assert NoteEvents(notes)[..|notes| - 1] == NoteEvents(notes[..|notes| - 1]);
    }
  }

  lemma {:induction false} RebuildResults(r: Rebuild, b: seq<Attempt>, m: nat, c: Call, k: string)
    requires m <= |b| && r.lastCall == Some(c)
    ensures var r' := RebuildAll(r, ResultEvents(b)[..m]);
            && r'.gate.threshold == r.gate.threshold && r'.gate.argHits == r.gate.argHits && r'.lastCall == Some(c)
            && Count(r'.gate.errorHits, k)
               == Count(r.gate.errorHits, k) + if !c.exempt && k == c.baseKey then |LoggedFailures(b, m)| else 0
    decreases m
  {
    hide AfterPost, LoggedFailures;
    if m > 0 {
      RebuildResults(r, b, m - 1, c, k);
      LoggedOneMore(b, m - 1);
      assert ResultEvents(b)[..m][..m - 1] == ResultEvents(b)[..m - 1];
      PostCounts(RebuildAll(r, ResultEvents(b)[..m - 1]).gate, c, b[m - 1].ok == Some(false), k);
    }
  }

  /** The rebuilt gate after a batch: every call is counted, every failure charged to the last. */
  lemma {:induction false} RebuildCounts(r: Rebuild, b: Batch, k: string)
    requires b.attempts != []
    ensures var n := |b.attempts|;
            var last := b.attempts[n - 1].logged;
            var r' := RebuildAll(r, LogOf(b));
            && r'.gate.threshold == r.gate.threshold
            && Count(r'.gate.argHits, k) == Count(r.gate.argHits, k) + |Called(b.attempts, n, k)|
            && Count(r'.gate.errorHits, k)
               == Count(r.gate.errorHits, k)
                  + if !last.exempt && k == last.baseKey then |LoggedFailures(b.attempts, n)| else 0
  {
    var n := |b.attempts|;
    var last := b.attempts[n - 1].logged;
    var calls, notes, results := CallEvents(b.attempts), NoteEvents(b.notes), ResultEvents(b.attempts);
    RebuildConcat(r, calls + notes, results);
    RebuildConcat(r, calls, notes);
    assert calls[..n] == calls && results[..n] == results;
    hide RebuildAll;
    RebuildCalls(r, b.attempts, n, k);
    var r1 := RebuildAll(r, calls);
    RebuildNotes(r1, b.notes);
    RebuildResults(RebuildAll(r1, notes), b.attempts, n, last, k);
  }

  // ------------------------------------------------------------------
  // Domination
  // ------------------------------------------------------------------

  /** Every counter of `r` is at least that of `g`. */
  ghost predicate Dominates(r: Gate, g: Gate) {
    && r.threshold == g.threshold
    && (forall k :: Count(r.argHits, k) >= Count(g.argHits, k))
    && (forall k :: Count(r.errorHits, k) >= Count(g.errorHits, k))
  }

  lemma {:induction false} Smaller(a: set<nat>, b: set<nat>)
    requires a <= b
    ensures |a| <= |b|
  {
    assert b == a + (b - a);
  }

  /** Only the calls of the batch count. */
  lemma {:induction false} AskedAreBelow(b: seq<Attempt>, s: set<nat>, k: string)
    ensures |Asked(b, s, k)| <= |Asked(b, Below(|b|), k)|
  {
    Smaller(Asked(b, s, k), Asked(b, Below(|b|), k));
  }

  /** Refused calls count in the log alone, so without redaction every key is logged often enough. */
  lemma {:induction false} VerbatimLogsKeys(b: seq<Attempt>)
    requires Verbatim(b)
    ensures KeysLogged(b)
  {
    forall k
      ensures |Asked(b, Below(|b|), k)| <= |Called(b, |b|, k)|
    {
      Smaller(Asked(b, Below(|b|), k), Called(b, |b|, k));
    }
  }

  lemma {:induction false} FailuresWereCharged(b: seq<Attempt>, u: Underway, g: Gate, k: string)
    requires b != [] && Logged(b) && ChargedRightly(b) && Counted(b, g, u)
    ensures var last := b[|b| - 1].logged;
            |Failed(b, u.ended, k)| <= if !last.exempt && k == last.baseKey then |LoggedFailures(b, |b|)| else 0
  {
    var last := b[|b| - 1].logged;
    if !last.exempt && k == last.baseKey {
      Smaller(Failed(b, u.ended, k), LoggedFailures(b, |b|));
    } else {
      assert Failed(b, u.ended, k) == {};
    }
  }

  ghost predicate BatchOk(b: Batch) {
    b.attempts != [] && Logged(b.attempts) && ChargedRightly(b.attempts) && KeysLogged(b.attempts)
  }

  /** A batch logged and charged rightly keeps the rebuilt gate at least as strict, in whatever order its calls ran. */
  lemma {:induction false} BatchDominates(r: Rebuild, g: Gate, b: Batch)
    requires Dominates(r.gate, g) && LiveBatch(g, b).Some?
    requires BatchOk(b)
    ensures Dominates(RebuildAll(r, LogOf(b)).gate, LiveBatch(g, b).value)
  {
    hide RebuildAll, LogOf, LiveBatch, Asked, Failed, Called, LoggedFailures, ChargedRightly, Below;
    var u := LiveCounts(g, b);
    var r' := RebuildAll(r, LogOf(b));
    RebuildCounts(r, b, "");
    forall k
      ensures Count(r'.gate.argHits, k) >= Count(u.gate.argHits, k)
      ensures Count(r'.gate.errorHits, k) >= Count(u.gate.errorHits, k)
    {
      RebuildCounts(r, b, k);
      AskedAreBelow(b.attempts, u.seen, k);
      FailuresWereCharged(b.attempts, u, g, k);
    }
  }

  // ------------------------------------------------------------------
  // The condition is exact
  // ------------------------------------------------------------------

  /** The calls run one after another. */
  function OneByOne(b: seq<Attempt>, n: nat): seq<Move>
    requires n <= |b|
  {
    if n == 0 then [] else OneByOne(b, n - 1) + MovesOf(b, n - 1)
  }

  function MovesOf(b: seq<Attempt>, i: nat): seq<Move>
    requires i < |b|
  {
    if b[i].reaches then [PreOf(i), PostOf(i)] else [PreOf(i)]
  }

  lemma {:induction false} PlayConcat(b: seq<Attempt>, u: Underway, x: seq<Move>, y: seq<Move>)
    requires Play(b, u, x).Some?
    ensures Play(b, u, x + y) == Play(b, Play(b, u, x).value, y)
    decreases |x|
  {
    if x == [] {
      assert x + y == y;
    } else {
      PlayConcat(b, Moved(b, u, x[0]), x[1..], y);
      assert (x + y)[1..] == x[1..] + y;
    }
  }

  function Below(n: nat): (s: set<nat>)
    ensures forall i :: i in s <==> 0 <= i < n
    ensures |s| == n
  {
    if n == 0 then {} else Below(n - 1) + {n - 1}
  }

  /** With a threshold above the size of the batch nothing in it is blocked. */
  lemma {:induction false} NothingIsBlocked(b: seq<Attempt>, u: Underway, n: nat)
    requires n < |b| && Counted(b, NewGate(|b| + 2), u) && u.seen == Below(n) && u.ended <= Below(n)
    ensures !Blocks(u.gate, b[n].call)
  {
    var c := b[n].call;
    Smaller(Asked(b, u.seen, c.argsKey), Below(n));
    Smaller(Failed(b, u.ended, c.baseKey), Below(n));
    assert Count(u.gate.argHits, c.argsKey) <= n && Count(u.gate.errorHits, c.baseKey) <= n;
  }

  /** The first `n` calls have run, one after another. */
  ghost predicate RanBelow(b: seq<Attempt>, u: Underway, n: nat) {
    && Counted(b, NewGate(|b| + 2), u)
    && u.seen == Below(n) && u.ended == u.ran && u.ended <= Below(n)
    && (forall i :: 0 <= i < n && i < |b| && b[i].reaches ==> i in u.ended)
  }

  function AfterBoth(b: seq<Attempt>, v: Underway, n: nat): Underway
    requires n < |b|
  {
    var u := if CanMove(b, v, PreOf(n)) then Moved(b, v, PreOf(n)) else v;
    if b[n].reaches && CanMove(b, u, PostOf(n)) then Moved(b, u, PostOf(n)) else u
  }

  lemma {:induction false} OnePlays(b: seq<Attempt>, v: Underway, n: nat)
    requires n < |b| && CanMove(b, v, PreOf(n))
    requires b[n].reaches ==> CanMove(b, Moved(b, v, PreOf(n)), PostOf(n))
    ensures Play(b, v, MovesOf(b, n)) == Some(AfterBoth(b, v, n))
  {
    hide CanMove, Moved;
    assert MovesOf(b, n)[1..] == if b[n].reaches then [PostOf(n)] else [];
    var w := Moved(b, v, PreOf(n));
    if b[n].reaches {
      assert [PostOf(n)][1..] == [];
      assert Play(b, Moved(b, w, PostOf(n)), []) == Some(Moved(b, w, PostOf(n)));
      assert Play(b, w, [PostOf(n)]) == Some(Moved(b, w, PostOf(n)));
    } else {
      assert Play(b, w, []) == Some(w);
    }
  }

  lemma {:induction false} OneRuns(b: seq<Attempt>, v: Underway, n: nat) returns (u: Underway)
    requires n < |b| && RanBelow(b, v, n)
    ensures Play(b, v, MovesOf(b, n)) == Some(u) && RanBelow(b, u, n + 1)
  {
    hide Play, Counted, AfterPre, AfterPost, Blocks;
    NothingIsBlocked(b, v, n);
    var w := Moved(b, v, PreOf(n));
    MoveCounts(b, NewGate(|b| + 2), v, PreOf(n));
    OnePlays(b, v, n);
    u := AfterBoth(b, v, n);
    if b[n].reaches {
      MoveCounts(b, NewGate(|b| + 2), w, PostOf(n));
    }
  }

  lemma {:induction false} NoneRan(b: seq<Attempt>)
    ensures RanBelow(b, Underway(NewGate(|b| + 2), {}, {}, {}), 0)
  {
    assert forall k :: Asked(b, {}, k) == {} && Failed(b, {}, k) == {};
  }

  lemma {:induction false} OneByOneRuns(b: seq<Attempt>, n: nat) returns (u: Underway)
    requires n <= |b|
    ensures Play(b, Underway(NewGate(|b| + 2), {}, {}, {}), OneByOne(b, n)) == Some(u)
    ensures RanBelow(b, u, n)
  {
    hide RanBelow, MovesOf;
    var start := Underway(NewGate(|b| + 2), {}, {}, {});
    if n == 0 {
      u := start;
      NoneRan(b);
    } else {
      hide Play;
      var v := OneByOneRuns(b, n - 1);
      u := OneRuns(b, v, n - 1);
      PlayConcat(b, start, OneByOne(b, n - 1), MovesOf(b, n - 1));
    }
  }

  lemma {:induction false} AllRun(b: seq<Attempt>) returns (u: Underway)
    ensures LiveBatch(NewGate(|b| + 2), Batch(b, OneByOne(b, |b|), [])) == Some(u.gate)
    ensures Counted(b, NewGate(|b| + 2), u)
    ensures u.seen == Below(|b|) && forall i :: 0 <= i < |b| && b[i].reaches ==> i in u.ended
  {
    hide Play, OneByOne, Counted;
    u := OneByOneRuns(b, |b|);
  }

  /** A failure charged to another key, or to none, leaves the rebuilt gate behind. */
  lemma {:induction false} MischargedFailure(b: seq<Attempt>, i: nat)
    requires i < |b| && b[i].reaches && b[i].fails && !b[i].call.exempt
    requires b[|b| - 1].logged.exempt || b[|b| - 1].logged.baseKey != b[i].call.baseKey
    ensures var g := NewGate(|b| + 2);
            var batch := Batch(b, OneByOne(b, |b|), []);
            && LiveBatch(g, batch).Some?
            && !Dominates(RebuildAll(Rebuild(g, None), LogOf(batch)).gate, LiveBatch(g, batch).value)
  {
    var g := NewGate(|b| + 2);
    var batch := Batch(b, OneByOne(b, |b|), []);
    hide LiveBatch, LogOf, RebuildAll, OneByOne, LoggedFailures, Called, Asked, Below;
    var u := AllRun(b);
    var k := b[i].call.baseKey;
    assert i in Failed(b, u.ended, k);
    RebuildCounts(Rebuild(g, None), batch, k);
    assert Count(u.gate.errorHits, k) >= 1;
  }

  /** A call whose key the log does not repeat, as after a redaction, leaves it behind as well. */
  lemma {:induction false} LostCall(b: seq<Attempt>, k: string)
    requires b != [] && |Asked(b, Below(|b|), k)| > |Called(b, |b|, k)|
    ensures var g := NewGate(|b| + 2);
            var batch := Batch(b, OneByOne(b, |b|), []);
            && LiveBatch(g, batch).Some?
            && !Dominates(RebuildAll(Rebuild(g, None), LogOf(batch)).gate, LiveBatch(g, batch).value)
  {
    var g := NewGate(|b| + 2);
    var batch := Batch(b, OneByOne(b, |b|), []);
    hide LiveBatch, LogOf, RebuildAll, OneByOne, LoggedFailures, Called, Asked, Failed, Below;
    var u := AllRun(b);
    RebuildCounts(Rebuild(g, None), batch, k);
    assert Count(u.gate.argHits, k) > |Called(b, |b|, k)|;
  }

  /**
   After a batch the rebuilt gate is at least as strict as the live one, from every
   start and in whatever order the calls ran, if and only if every call of the
   batch that can fail has the target that its last call is logged with, that one
   counts, and every key is logged at least as often as it is counted.
   */
  lemma {:induction false} BatchDominatesIff(b: seq<Attempt>)
    requires b != [] && Logged(b)
    ensures (forall r: Rebuild, g, moves, notes ::
               Dominates(r.gate, g) && LiveBatch(g, Batch(b, moves, notes)).Some? ==>
                 Dominates(RebuildAll(r, LogOf(Batch(b, moves, notes))).gate,
                           LiveBatch(g, Batch(b, moves, notes)).value))
            <==> ChargedRightly(b) && KeysLogged(b)
  {
    hide RebuildAll, LogOf, LiveBatch, Asked, Called, Below;
    if ChargedRightly(b) && KeysLogged(b) {
      forall r: Rebuild, g, moves, notes | Dominates(r.gate, g) && LiveBatch(g, Batch(b, moves, notes)).Some?
        ensures Dominates(RebuildAll(r, LogOf(Batch(b, moves, notes))).gate,
                          LiveBatch(g, Batch(b, moves, notes)).value)
      {
        BatchDominates(r, g, Batch(b, moves, notes));
      }
    } else {
      var r := Rebuild(NewGate(|b| + 2), None);
      assert Dominates(r.gate, NewGate(|b| + 2));
      if !KeysLogged(b) {
        var k :| |Asked(b, Below(|b|), k)| > |Called(b, |b|, k)|;
        LostCall(b, k);
      } else {
        var i :| 0 <= i < |b| && b[i].reaches && b[i].fails && !b[i].call.exempt
                 && (b[|b| - 1].logged.exempt || b[|b| - 1].logged.baseKey != b[i].call.baseKey);
        MischargedFailure(b, i);
      }
    }
  }

  // ------------------------------------------------------------------
  // Whole sessions
  // ------------------------------------------------------------------

  function LiveRun(g: Gate, bs: seq<Batch>): Option<Gate>
    decreases |bs|
  {
    if bs == [] then Some(g)
    else match LiveRun(g, bs[..|bs| - 1])
      case None => None
      case Some(h) => LiveBatch(h, bs[|bs| - 1])
  }

  function LogRun(bs: seq<Batch>): seq<LogEvent>
    decreases |bs|
  {
    if bs == [] then [] else LogRun(bs[..|bs| - 1]) + LogOf(bs[|bs| - 1])
  }

  /**
   The gate rebuilt from the log of a session whose batches are all logged and
   charged rightly is at least as strict as the gate the session had: its counters are no smaller,
   so it blocks every call that the live gate would block.
   */
  lemma {:induction false} RebuiltIsAtLeastAsStrict(bs: seq<Batch>, threshold: int, c: Call)
    requires forall i :: 0 <= i < |bs| ==> BatchOk(bs[i])
    requires LiveRun(NewGate(threshold), bs).Some?
    ensures var live := LiveRun(NewGate(threshold), bs).value;
            var rebuilt := RebuildAll(Rebuild(NewGate(threshold), None), LogRun(bs)).gate;
            Dominates(rebuilt, live) && (Blocks(live, c) ==> Blocks(rebuilt, c))
    decreases |bs|
  {
    if bs != [] {
      var before, last := bs[..|bs| - 1], bs[|bs| - 1];
      RebuiltIsAtLeastAsStrict(before, threshold, c);
      var start := Rebuild(NewGate(threshold), None);
      RebuildConcat(start, LogRun(before), LogOf(last));
      BatchDominates(RebuildAll(start, LogRun(before)), LiveRun(NewGate(threshold), before).value, last);
    }
  }

  /** A call made alone and logged verbatim is counted and charged rightly. */
  lemma {:induction false} SinglesAreChargedRightly(a: Attempt)
    requires a.logged == a.call
    ensures ChargedRightly([a]) && KeysLogged([a])
  {
    VerbatimLogsKeys([a]);
  }

  /** So a session that makes its calls one at a time, with nothing redacted, is rebuilt at least as strictly. */
  lemma {:induction false} SequentialSessionsAreRebuilt(bs: seq<Batch>, threshold: int, c: Call)
    requires forall i :: 0 <= i < |bs| ==> |bs[i].attempts| == 1 && Logged(bs[i].attempts)
    requires forall i :: 0 <= i < |bs| ==> bs[i].attempts[0].logged == bs[i].attempts[0].call
    requires LiveRun(NewGate(threshold), bs).Some?
    ensures var live := LiveRun(NewGate(threshold), bs).value;
            var rebuilt := RebuildAll(Rebuild(NewGate(threshold), None), LogRun(bs)).gate;
            Dominates(rebuilt, live) && (Blocks(live, c) ==> Blocks(rebuilt, c))
  {
    hide LiveRun, RebuildAll, LogRun, Blocks, Dominates;
    forall i | 0 <= i < |bs|
      ensures BatchOk(bs[i])
    {
      SinglesAreChargedRightly(bs[i].attempts[0]);
      assert bs[i].attempts == [bs[i].attempts[0]];
    }
    RebuiltIsAtLeastAsStrict(bs, threshold, c);
  }

  /** One harmless call whose arguments are redacted in the log: the live gate counts it, the rebuilt one does not. */
  lemma {:induction false} RedactedCallIsLost(a: Attempt)
    requires a.reaches && !a.fails && !a.call.exempt
    ensures Logged([a]) && ChargedRightly([a])
    ensures KeysLogged([a]) <==> !a.logged.exempt && a.logged.argsKey == a.call.argsKey
  {
    var b, k := [a], a.call.argsKey;
    assert Asked(b, Below(1), k) == {0};
    if a.logged.exempt || a.logged.argsKey != k {
      assert Called(b, 1, k) == {};
      assert |Asked(b, Below(|b|), k)| == 1;
    } else {
      forall j
        ensures |Asked(b, Below(|b|), j)| <= |Called(b, |b|, j)|
      {
        Smaller(Asked(b, Below(|b|), j), Called(b, |b|, j));
      }
    }
  }

  // ------------------------------------------------------------------
  // Any run of the gate
  // ------------------------------------------------------------------

  function UseStep(g: Gate, u: Use): Gate {
    match u case Pre(c) => AfterPre(g, c) case Post(c, e) => AfterPost(g, c, e)
  }

  function UseAll(g: Gate, us: seq<Use>): Gate
    decreases |us|
  {
    if us == [] then g else UseAll(UseStep(g, us[0]), us[1..])
  }

  /** How many times the call is let through in the run. */
  function Allowed(g: Gate, us: seq<Use>, c: Call): nat
    decreases |us|
  {
    if us == [] then 0
    else (if us[0] == Pre(c) && !Blocks(g, c) then 1 else 0) + Allowed(UseStep(g, us[0]), us[1..], c)
  }

  lemma {:induction false} UseCounts(g: Gate, u: Use, ak: string, bk: string)
    ensures UseStep(g, u).threshold == g.threshold
    ensures Count(UseStep(g, u).argHits, ak)
            == Count(g.argHits, ak) + if u.Pre? && !u.call.exempt && u.call.argsKey == ak then 1 else 0
    ensures Count(UseStep(g, u).errorHits, bk)
            == Count(g.errorHits, bk)
               + if u.Post? && u.isError && !u.call.exempt && u.call.baseKey == bk then 1 else 0
  {
    match u
    case Pre(c) => PreCounts(g, c, ak);
    case Post(c, e) => PostCounts(g, c, e, bk);
  }

  lemma {:induction false} StepKeepsCounts(g: Gate, us: seq<Use>, u: Use)
    requires Counts(g, us)
    ensures Counts(UseStep(g, u), us + [u])
  {
    assert (us + [u])[..|us|] == us;
    hide AfterPre, AfterPost;
    forall k
      ensures Count(UseStep(g, u).argHits, k) == Calls(us + [u], k)
      ensures Count(UseStep(g, u).errorHits, k) == Failures(us + [u], k)
    {
      UseCounts(g, u, k, k);
    }
  }

  lemma {:induction false} UseOneMore(g: Gate, us: seq<Use>, u: Use)
    ensures UseAll(g, us + [u]) == UseStep(UseAll(g, us), u)
    decreases |us|
  {
    hide UseStep;
    if us == [] {
      assert [u][1..] == [];
      assert us + [u] == [u];
      assert UseAll(UseStep(g, u), []) == UseStep(g, u);
    } else {
      UseOneMore(UseStep(g, us[0]), us[1..], u);
      assert (us + [u])[1..] == us[1..] + [u];
    }
  }

  lemma {:induction false} RunCounts(threshold: int, us: seq<Use>)
    ensures Counts(UseAll(NewGate(threshold), us), us)
    ensures UseAll(NewGate(threshold), us).threshold == threshold
    decreases |us|
  {
    if us == [] {
    } else {
      hide UseStep, Counts, UseAll;
      var before, u := us[..|us| - 1], us[|us| - 1];
      var g := UseAll(NewGate(threshold), before);
      RunCounts(threshold, before);
      assert us == before + [u];
      UseOneMore(NewGate(threshold), before, u);
      StepKeepsCounts(g, before, u);
      UseCounts(g, u, "", "");
    }
  }

  /**
   After any run of a new gate a call that does not only read is refused if and only if at
   least `threshold` - 1 calls with its arguments were observed or at least that many with its
   target failed.
   */
  lemma {:induction false} RefusedIff(threshold: int, us: seq<Use>, c: Call)
    ensures Blocks(UseAll(NewGate(threshold), us), c) <==> Refused(threshold, us, c)
  {
    RunCounts(threshold, us);
  }

  /** The key under which a refusal is noted: the arguments when those are repeated, else the target. */
  function RefusalKey(threshold: int, us: seq<Use>, c: Call): string {
    if Calls(us, c.argsKey) >= threshold - 1 then c.argsKey else c.baseKey
  }

  /** A call with this key has been refused. */
  ghost predicate WasRefused(threshold: int, us: seq<Use>, k: string) {
    exists i ::
      0 <= i < |us| && us[i].Pre? && Refused(threshold, us[..i], us[i].call)
      && RefusalKey(threshold, us[..i], us[i].call) == k
  }

  lemma {:induction false} WasRefusedOneMore(threshold: int, us: seq<Use>, u: Use, k: string)
    ensures WasRefused(threshold, us + [u], k)
            <==> WasRefused(threshold, us, k)
                 || (u.Pre? && Refused(threshold, us, u.call) && RefusalKey(threshold, us, u.call) == k)
  {
    hide Refused, RefusalKey;
    var vs := us + [u];
    assert vs[..|us|] == us && vs[|us|] == u;
    assert forall i :: 0 <= i < |us| ==> vs[..i] == us[..i] && vs[i] == us[i];
    if WasRefused(threshold, us, k) {
      var i :| 0 <= i < |us| && us[i].Pre? && Refused(threshold, us[..i], us[i].call)
               && RefusalKey(threshold, us[..i], us[i].call) == k;
      assert vs[i].Pre? && Refused(threshold, vs[..i], vs[i].call);
    } else if WasRefused(threshold, vs, k) {
      var i :| 0 <= i < |vs| && vs[i].Pre? && Refused(threshold, vs[..i], vs[i].call)
               && RefusalKey(threshold, vs[..i], vs[i].call) == k;
      assert i == |us|;
    }
  }

  /** A refused call is noted exactly when no refusal before it had its key, so each key is noted once. */
  lemma {:induction false} NotedIffRefused(threshold: int, us: seq<Use>, k: string)
    ensures k in UseAll(NewGate(threshold), us).noted <==> WasRefused(threshold, us, k)
    ensures |UseAll(NewGate(threshold), us).notes| == |UseAll(NewGate(threshold), us).noted|
    decreases |us|
  {
    if us == [] {
    } else {
      hide UseAll, WasRefused, AfterPost;
      var before, u := us[..|us| - 1], us[|us| - 1];
      var g := UseAll(NewGate(threshold), before);
      assert us == before + [u];
      NotedIffRefused(threshold, before, k);
      UseOneMore(NewGate(threshold), before, u);
      WasRefusedOneMore(threshold, before, u, k);
      match u
      case Pre(c) =>
        RunCounts(threshold, before);
        PreCounts(g, c, c.argsKey);
        assert Blocks(g, c) <==> Refused(threshold, before, c);
      case Post(c, e) => PostNotes(g, c, e);
    }
  }

  lemma {:induction false} PostNotes(g: Gate, c: Call, e: bool)
    ensures AfterPost(g, c, e).noted == g.noted && AfterPost(g, c, e).notes == g.notes
  {
  }

  /** In any run a call that is not exempt is let through at most `threshold` - 1 times. */
  lemma {:induction false} AllowedAtMostThreshold(g: Gate, us: seq<Use>, c: Call)
    requires !c.exempt
    ensures Allowed(g, us, c) <= if g.threshold - 1 > Count(g.argHits, c.argsKey)
                                 then g.threshold - 1 - Count(g.argHits, c.argsKey) else 0
    decreases |us|
  {
    if us != [] {
      var h := UseStep(g, us[0]);
      UseCounts(g, us[0], c.argsKey, c.baseKey);
      AllowedAtMostThreshold(h, us[1..], c);
    }
  }

  /** A blocked call stays blocked, whatever else the session does. */
  lemma {:induction false} BlockedStaysBlocked(g: Gate, us: seq<Use>, c: Call)
    requires Blocks(g, c)
    ensures Blocks(UseAll(g, us), c)
    decreases |us|
  {
    if us != [] {
      var h := UseStep(g, us[0]);
      UseCounts(g, us[0], c.argsKey, c.baseKey);
      BlockedStaysBlocked(h, us[1..], c);
    }
  }
}

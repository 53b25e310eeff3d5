/**
 The step loop of one turn: request, retry, fallback with held output, tools,
 soft pause, hard ceiling, budget stop, abort, and the one wrap-up request.

 Everything outside the loop is in the environment: what each request streams,
 what each tool returns, what the pause hook answers, when the signal fires. The
 signal is read against a clock that advances at every check of it.
 */
module TurnLoop {
  import opened Options
  import opened Conversation
  import opened LlmStream
  import opened Spaces

  // ------------------------------------------------------------------
  // Configuration and environment
  // ------------------------------------------------------------------

  /** A positive integer, or the fallback; None stands for anything that is not an integer. */
  function ClampTurnInt(value: Option<int>, fallback: nat): (n: nat)
    requires fallback > 0
    ensures n > 0
    ensures value.Some? && value.value > 0 ==> n == value.value
    ensures n == fallback || value == Some(n)
  {
    if value.Some? && value.value > 0 then value.value else fallback
  }

  datatype Config = Config(
    headless: bool,
    sinkCanPause: bool,
    maxSteps: Option<int>,
    pauseAfterSteps: Option<int>,
    hardMaxSteps: Option<int>,
    fallbackConfigured: bool,
    modelOverridden: bool,
    credentialError: bool)   // signing in to the primary provider failed

  function MaxSteps(cfg: Config): nat { ClampTurnInt(cfg.maxSteps, 25) }

  function PauseAfterSteps(cfg: Config): (n: nat)
    ensures n > 0
  {
    ClampTurnInt(cfg.pauseAfterSteps, 50)
  }

  function HardMaxSteps(cfg: Config): nat { ClampTurnInt(cfg.hardMaxSteps, 300) }

  predicate PauseEnabled(cfg: Config) { !cfg.headless && cfg.sinkCanPause }

  function LoopCap(cfg: Config): nat {
    if PauseEnabled(cfg) then HardMaxSteps(cfg) else MaxSteps(cfg)
  }

  /** A request streams events, or its call throws after sending some text. */
  datatype Reply = Streams(events: seq<StreamEvent>) | Throws(sentFirst: seq<string>, isAbort: bool)

  datatype PauseAnswer = Continue | StopHere | HookFails

  datatype AuthAnswer = SignedIn | CredentialFailure | AbortFailure | OtherFailure

  datatype PrepareAnswer = Prepared | PrepareAborts | PrepareFails

  datatype Env = Env(
    userInput: string,
    replies: nat -> Reply,                      // by number of the request
    toolResult: (nat, nat) -> (string, bool),   // by batch and position in it
    overBudget: nat -> bool,                    // by step
    pauseAnswer: nat -> PauseAnswer,
    fallbackAuth: AuthAnswer,
    prepare: PrepareAnswer,                     // switching to the fallback model
    instruction: Why -> string,
    abortAt: Option<nat>)

  // ------------------------------------------------------------------
  // State
  // ------------------------------------------------------------------

  /** A request of the main loop notes how many batches had been run by then. */
  datatype Request = MainRequest(history: seq<Message>, after: nat) | WrapUpRequest(history: seq<Message>)

  datatype Why = BudgetExceeded | HardCeiling | StoppedAtPause | StepLimit

  /** `shown` is the text the sink got from the main loop, `response` the text it accumulated. */
  datatype Turn = Turn(
    history: seq<Message>,
    requests: seq<Request>,
    shown: string,
    response: string,
    clock: nat,
    overridden: bool,
    credentialError: bool,
    committed: Option<LlmStreamResult>,   // a fallback reply obtained before the loop
    interrupted: bool,
    threw: bool,
    lastReason: Reason,
    batches: nat,
    wrapUp: Option<Why>,
    wrapUpText: Option<string>)

  function NewTurn(env: Env, cfg: Config): Turn {
    Turn([User(Plain(env.userInput))], [], "", "", 0, cfg.modelOverridden, cfg.credentialError, None,
         false, false, Stop, 0, None, None)
  }

  predicate AbortedNow(env: Env, t: Turn) { AbortedAt(env.abortAt, t.clock) }

  predicate CanFallback(cfg: Config, t: Turn) { cfg.fallbackConfigured && !t.overridden }

  // ------------------------------------------------------------------
  // Requests
  // ------------------------------------------------------------------

  /** A request's effect: the turn after it, its result unless it threw, and the text it sent. */
  datatype Attempted = Attempted(turn: Turn, result: Option<LlmStreamResult>, sent: string)

  function Recorded(t: Turn, held: bool, sent: string, taken: nat): Turn {
    t.(requests := t.requests + [MainRequest(t.history, t.batches)],
       clock := t.clock + taken,
       shown := if held then t.shown else t.shown + sent)
  }

  function AttemptStream(env: Env, t: Turn, held: bool): Attempted {
    match env.replies(|t.requests|)
    case Streams(es) =>
      var s := StreamOf(es, t.clock, env.abortAt);
      Attempted(Recorded(t, held, Concat(s.sent), |es|), Some(s.result), Concat(s.sent))
    case Throws(first, _) =>
      Attempted(Recorded(t, held, Concat(first), 1), None, Concat(first))
  }

  /** The result the step goes on with, and whether a fallback was asked and turned down. */
  datatype Recovered = Recovered(turn: Turn, result: Option<LlmStreamResult>, rejected: bool)

  predicate WorthRetrying(r: LlmStreamResult) {
    !r.emittedToUi && (ShouldFallback(r) || IsPrematureEndRetry(r))
  }

  function RetryOnce(env: Env, t: Turn, r: LlmStreamResult): Attempted {
    if r.finalReason != Timeout && !IsConnectExhausted(r) then AttemptStream(env, t, false)
    else Attempted(t, Some(r), "")
  }

  /** Hold the fallback's text until it has finished cleanly; then show it and switch. */
  function TryFallback(env: Env, t: Turn, r: LlmStreamResult): Recovered {
    if env.prepare != Prepared then Recovered(t, None, true)
    else
      var a := AttemptStream(env, t, true);
      match a.result
      case None => Recovered(a.turn, None, true)
      case Some(f) =>
        if FinishedCleanly(f) then Recovered(a.turn.(shown := t.shown + a.sent, overridden := true), Some(f), false)
        else Recovered(a.turn, Some(r), true)
  }

  function Recover(env: Env, cfg: Config, t: Turn, r: LlmStreamResult): Recovered {
    var a := RetryOnce(env, t, r);
    match a.result
    case None => Recovered(a.turn, None, false)
    case Some(r1) =>
      if WorthRetrying(r1) && CanFallback(cfg, a.turn) then TryFallback(env, a.turn, r1)
      else Recovered(a.turn, Some(r1), false)
  }

  // ------------------------------------------------------------------
  // Before the loop: the fallback for a failed sign-in
  // ------------------------------------------------------------------

  /** Signed in: the fallback's text is held until it has finished cleanly. */
  function AskFallbackFirst(env: Env, t: Turn): Turn {
    var a := AttemptStream(env, t, true);
    match a.result
    case Some(r) =>
      if FinishedCleanly(r) then
        a.turn.(shown := t.shown + a.sent, overridden := true, credentialError := false, committed := Some(r))
      else if AbortedNow(env, a.turn) then a.turn.(credentialError := false)
      else a.turn
    case None =>
      if AbortedNow(env, a.turn) || env.replies(|t.requests|).isAbort then a.turn.(credentialError := false)
      else a.turn.(threw := true)
  }

  function CredentialFallback(env: Env, cfg: Config, t: Turn): Turn {
    var u := t.(clock := t.clock + 1);
    if !(t.credentialError && CanFallback(cfg, t)) then t
    else if AbortedNow(env, t) then u
    else if env.fallbackAuth == SignedIn && env.prepare == Prepared then AskFallbackFirst(env, u)
    else if AbortedNow(env, u) || env.fallbackAuth == AbortFailure
            || (env.fallbackAuth == SignedIn && env.prepare == PrepareAborts) then u.(credentialError := false)
    else if env.fallbackAuth == CredentialFailure then u
    else u.(threw := true)
  }

  // ------------------------------------------------------------------
  // Tools and the wrap-up
  // ------------------------------------------------------------------

  const NOT_EXECUTED_TEXT := "Not executed: the step budget was reached and the turn was stopped."

  function ResultOf(env: Env, batch: nat, i: nat, c: Call): Message {
    var (text, isError) := env.toolResult(batch, i);
    ToolResult(c.id, c.name, text, isError)
  }

  function BatchResults(env: Env, batch: nat, calls: seq<Call>): seq<Message> {
    seq(|calls|, i requires 0 <= i < |calls| => ResultOf(env, batch, i, calls[i]))
  }

  /** Push the results in the order of the calls. */
  method ExecuteBatch(env: Env, history: seq<Message>, batch: nat, calls: seq<Call>) returns (h: seq<Message>)
    ensures h == history + BatchResults(env, batch, calls)
    ensures Answers(h[|history|..], calls)
    ensures |h| == |history| + |calls| && h[..|history|] == history
    ensures forall i :: 0 <= i < |calls| ==>
              h[|history| + i] == ToolResult(calls[i].id, calls[i].name,
                                             env.toolResult(batch, i).0, env.toolResult(batch, i).1)
  {
    h := history;
    for i := 0 to |calls|
      invariant h == history + BatchResults(env, batch, calls)[..i]
    {
      h := h + [ResultOf(env, batch, i, calls[i])];
      assert BatchResults(env, batch, calls)[..i + 1]
             == BatchResults(env, batch, calls)[..i] + [BatchResults(env, batch, calls)[i]];
    }
    assert BatchResults(env, batch, calls)[..|calls|] == BatchResults(env, batch, calls);
  }

  /** The instruction's wording is the environment's; the reason it names is the loop's. */
  function Instruction(env: Env, why: Why): Message {
    User(Plain(env.instruction(why)))
  }

  /** Visible text of a wrap-up reply whose tool calls are ignored, if it has any. */
  function VisibleText(m: Option<Message>): Option<string> {
    match m
    case Some(Assistant(c, _)) => if IsBlank(TextOf(c)) then None else Some(TextOf(c))
    case _ => None
  }

  function WrapUpText(r: LlmStreamResult): Option<string> {
    if !IsBlank(r.fullResponse) then Some(r.fullResponse) else VisibleText(r.finalMessage)
  }

  /** The turn after a wrap-up reply: its summary is kept unless it failed. */
  function Summarised(env: Env, t: Turn, r: LlmStreamResult): Turn {
    var stored := match WrapUpText(r)
                  case Some(text) =>
                    t.(wrapUpText := Some(text), history := t.history + [Assistant(Plain(text), None)])
                  case None => t;
    if r.interrupted || AbortedNow(env, t) || r.finalReason == AbortedReason
    then stored.(lastReason := AbortedReason, interrupted := true)
    else if r.finalReason == Errored then t.(lastReason := Errored)
    else stored.(lastReason := if r.finalReason == ToolUse then Stop else r.finalReason)
  }

  /** The wrap-up request has the flattened history with the instruction, which does not stay in the history. */
  function Wrapping(t: Turn, why: Why, flat: seq<Message>, taken: nat): Turn {
    t.(requests := t.requests + [WrapUpRequest(flat)], wrapUp := Some(why), clock := t.clock + taken)
  }

  function AfterWrapUp(env: Env, t: Turn, reply: Option<LlmStreamResult>): Turn {
    if reply.Some? then Summarised(env, t, reply.value)
    else if AbortedNow(env, t) then t.(lastReason := AbortedReason, interrupted := true) else t.(lastReason := Errored)
  }

  /** One request without tools. */
  function AskSummary(env: Env, t: Turn, why: Why): Attempted {
    var flat := Flatten(t.history + [Instruction(env, why)]);
    match env.replies(|t.requests|)
    case Throws(_, _) => Attempted(Wrapping(t, why, flat, 1), None, "")
    case Streams(es) => Attempted(Wrapping(t, why, flat, |es|), Some(StreamOf(es, t.clock, env.abortAt).result), "")
  }

  function WrapUpStep(env: Env, t: Turn, why: Why): Turn {
    var a := AskSummary(env, t, why);
    AfterWrapUp(env, a.turn, a.result)
  }

  /** Stop before running the pending batch: record its calls as not executed, then wrap up. */
  function StopBeforeBatch(env: Env, t: Turn, calls: seq<Call>, why: Why): Turn {
    WrapUpStep(env, t.(history := t.history + NotExecuted(calls, NOT_EXECUTED_TEXT)), why)
  }

  // ------------------------------------------------------------------
  // One step
  // ------------------------------------------------------------------

  /** The turn after a step, and whether the loop goes on. */
  datatype Stepped = Stepped(turn: Turn, goesOn: bool)

  /** The reply to this step's request, after any retry and fallback. */
  function Answered(env: Env, cfg: Config, t: Turn, step: nat): Recovered {
    var a := if t.committed.Some? then Attempted(t.(committed := None), t.committed, "")
             else AttemptStream(env, t, false);
    match a.result
    case None => Recovered(a.turn, None, false)
    case Some(r) =>
      if step == 0 && WorthRetrying(r) then Recover(env, cfg, a.turn, r) else Recovered(a.turn, Some(r), false)
  }

  /** Add the reply to the response and to the history; says whether there are tools to run. */
  function Accept(env: Env, t: Turn, r: LlmStreamResult): Stepped {
    var t1 := t.(lastReason := r.finalReason, response := t.response + r.fullResponse, clock := t.clock + 1);
    if r.interrupted || AbortedNow(env, t) then Stepped(t1.(interrupted := true), false)
    else
      var t2 := if r.finalMessage.Some? then t1.(history := t1.history + [r.finalMessage.value]) else t1;
      Stepped(t2, r.pendingToolCalls != [] && r.finalReason == ToolUse)
  }

  /** The checks that may stop the turn before the pending batch runs. */
  function CheckLimits(env: Env, cfg: Config, t: Turn, step: nat, calls: seq<Call>): Stepped {
    var used := step + 1;
    if cfg.headless && env.overBudget(step) then Stepped(StopBeforeBatch(env, t, calls, BudgetExceeded), false)
    else if !PauseEnabled(cfg) then Stepped(t, true)
    else if used >= HardMaxSteps(cfg) then Stepped(StopBeforeBatch(env, t, calls, HardCeiling), false)
    else if used % PauseAfterSteps(cfg) != 0 then Stepped(t, true)
    else
      var t1 := t.(clock := t.clock + 1);
      if AbortedNow(env, t) then
        Stepped(t1.(history := t.history + NotExecuted(calls, NOT_EXECUTED_TEXT), interrupted := true), false)
      else if env.pauseAnswer(step) != Continue then Stepped(StopBeforeBatch(env, t1, calls, StoppedAtPause), false)
      else Stepped(t1, true)
  }

  /** Run the batch, unless the signal fired; a signal during the batch ends the turn after it. */
  function RunBatch(env: Env, cfg: Config, t: Turn, step: nat, calls: seq<Call>): Stepped {
    var t1 := t.(clock := t.clock + 1);
    if AbortedNow(env, t) then Stepped(t1.(interrupted := true), false)
    else
      var t2 := t1.(history := t.history + BatchResults(env, t.batches, calls), batches := t.batches + 1,
                    clock := t.clock + 2);
      if AbortedNow(env, t1) then Stepped(t2.(interrupted := true), false)
      else if !PauseEnabled(cfg) && step + 1 == MaxSteps(cfg) then Stepped(WrapUpStep(env, t2, StepLimit), false)
      else Stepped(t2, true)
  }

  function Proceed(env: Env, cfg: Config, t: Turn, step: nat, r: LlmStreamResult): Stepped {
    var acc := Accept(env, t, r);
    if !acc.goesOn then acc
    else
      var lim := CheckLimits(env, cfg, acc.turn, step, r.pendingToolCalls);
      if !lim.goesOn then lim else RunBatch(env, cfg, lim.turn, step, r.pendingToolCalls)
  }

  /** A recoverable failure that no fallback replaced ends the turn with an error. */
  function AfterAnswer(env: Env, cfg: Config, rec: Recovered, step: nat): Stepped {
    match rec.result
    case None => Stepped(rec.turn.(threw := true), false)
    case Some(r0) =>
      var r := WithoutTools(r0);
      if r.finalReason != Timeout && rec.rejected && IsRecoverable(r) then
        Stepped(rec.turn.(lastReason := Errored), false)
      else Proceed(env, cfg, rec.turn, step, r)
  }

  function StepOnce(env: Env, cfg: Config, t: Turn, step: nat): Stepped {
    var t0 := t.(clock := t.clock + 1);
    if AbortedNow(env, t) then Stepped(t0.(interrupted := true), false)
    else AfterAnswer(env, cfg, Answered(env, cfg, t0, step), step)
  }

  function LoopFrom(env: Env, cfg: Config, t: Turn, step: nat): Turn
    decreases LoopCap(cfg) - step
  {
    if step >= LoopCap(cfg) then t
    else
      var s := StepOnce(env, cfg, t, step);
      if s.goesOn then LoopFrom(env, cfg, s.turn, step + 1) else s.turn
  }

  /** The whole turn. */
  function TurnOf(env: Env, cfg: Config): Turn {
    var t := CredentialFallback(env, cfg, NewTurn(env, cfg));
    if t.threw || t.credentialError then t else LoopFrom(env, cfg, t, 0)
  }

  // ------------------------------------------------------------------
  // The loop as the program runs it
  // ------------------------------------------------------------------

  method Attempt(env: Env, t: Turn, held: bool) returns (t': Turn, r: Option<LlmStreamResult>, sent: string)
    ensures Attempted(t', r, sent) == AttemptStream(env, t, held)
  {
    var taken := 1;
    match env.replies(|t.requests|) {
      case Streams(es) =>
        var s := RunLlmStream(es, t.clock, env.abortAt);
        sent, r, taken := Concat(s.sent), Some(s.result), |es|;
      case Throws(first, _) =>
        sent, r := Concat(first), None;
    }
    t' := Recorded(t, held, sent, taken);
  }

  method AskAgain(env: Env, cfg: Config, t: Turn, r: LlmStreamResult)
    returns (t': Turn, r': Option<LlmStreamResult>, rejected: bool)
    ensures Recovered(t', r', rejected) == Recover(env, cfg, t, r)
  {
    t', r', rejected := t, Some(r), false;
    var sent := "";
    if r.finalReason != Timeout && !IsConnectExhausted(r) {
      t', r', sent := Attempt(env, t, false);
      if r' == None {
        return;
      }
    }
    var r1 := r'.value;
    if WorthRetrying(r1) && CanFallback(cfg, t') {
      if env.prepare != Prepared {
        return t', None, true;
      }
      var before := t'.shown;
      t', r', sent := Attempt(env, t', true);
      if r' == None {
        rejected := true;
      } else if FinishedCleanly(r'.value) {
        t' := t'.(shown := before + sent, overridden := true);
      } else {
        r', rejected := Some(r1), true;
      }
    }
  }

  method KeepSummary(env: Env, t: Turn, r: LlmStreamResult) returns (t': Turn)
    ensures t' == Summarised(env, t, r)
  {
    t' := t;
    var aborted := r.interrupted || AbortedNow(env, t) || r.finalReason == AbortedReason;
    if !aborted && r.finalReason == Errored {
      t' := t.(lastReason := Errored);
      return;
    }
    var text := WrapUpText(r);
    if text.Some? {
      t' := t.(wrapUpText := text, history := t.history + [Assistant(Plain(text.value), None)]);
    }
    if aborted {
      t' := t'.(lastReason := AbortedReason, interrupted := true);
    } else {
      t' := t'.(lastReason := if r.finalReason == ToolUse then Stop else r.finalReason);
    }
  }

  method AfterReply(env: Env, t: Turn, reply: Option<LlmStreamResult>) returns (t': Turn)
    ensures t' == AfterWrapUp(env, t, reply)
  {
    if reply.Some? {
      t' := KeepSummary(env, t, reply.value);
    } else if AbortedNow(env, t) {
      t' := t.(lastReason := AbortedReason, interrupted := true);
    } else {
      t' := t.(lastReason := Errored);
    }
  }

  method SendWrapUp(env: Env, t: Turn, why: Why) returns (t': Turn, reply: Option<LlmStreamResult>)
    ensures Attempted(t', reply, "") == AskSummary(env, t, why)
  {
    var flat := FlattenWrapUpHistory(t.history + [Instruction(env, why)]);
    var taken := 1;
    match env.replies(|t.requests|) {
      case Throws(_, _) =>
        reply := None;
      case Streams(es) =>
        var s := RunLlmStream(es, t.clock, env.abortAt);
        reply, taken := Some(s.result), |es|;
    }
    t' := Wrapping(t, why, flat, taken);
  }

  method WrapUp(env: Env, t: Turn, why: Why) returns (t': Turn)
    ensures t' == WrapUpStep(env, t, why)
  {
    var reply;
    t', reply := SendWrapUp(env, t, why);
    t' := AfterReply(env, t', reply);
  }

  method StopAndWrapUp(env: Env, t: Turn, calls: seq<Call>, why: Why) returns (t': Turn)
    ensures t' == StopBeforeBatch(env, t, calls, why)
  {
    var h := AppendNotExecutedResults(t.history, calls, NOT_EXECUTED_TEXT);
    t' := WrapUp(env, t.(history := h), why);
  }

  /** May the pending batch run? If not, its calls are recorded as not executed. */
  method MayRun(env: Env, cfg: Config, t: Turn, step: nat, calls: seq<Call>) returns (t': Turn, goesOn: bool)
    ensures Stepped(t', goesOn) == CheckLimits(env, cfg, t, step, calls)
  {
    var used := step + 1;
    if cfg.headless && env.overBudget(step) {
      t' := StopAndWrapUp(env, t, calls, BudgetExceeded);
      return t', false;
    }
    if PauseEnabled(cfg) {
      if used >= HardMaxSteps(cfg) {
        t' := StopAndWrapUp(env, t, calls, HardCeiling);
        return t', false;
      }
      if used % PauseAfterSteps(cfg) == 0 {
        if AbortedNow(env, t) {
          var h := AppendNotExecutedResults(t.history, calls, NOT_EXECUTED_TEXT);
          return t.(history := h, interrupted := true, clock := t.clock + 1), false;
        }
        t' := t.(clock := t.clock + 1);
        if env.pauseAnswer(step) != Continue {
          t' := StopAndWrapUp(env, t', calls, StoppedAtPause);
          return t', false;
        }
        return t', true;
      }
    }
    return t, true;
  }

  method RunPending(env: Env, cfg: Config, t: Turn, step: nat, calls: seq<Call>) returns (t': Turn, goesOn: bool)
    ensures Stepped(t', goesOn) == RunBatch(env, cfg, t, step, calls)
  {
    hide WrapUpStep;
    goesOn := false;
    t' := t.(clock := t.clock + 1);
    if AbortedNow(env, t) {
      t' := t'.(interrupted := true);
      return;
    }
    var aborted := AbortedNow(env, t');
    var h := ExecuteBatch(env, t.history, t.batches, calls);
    t' := t'.(history := h, batches := t.batches + 1, clock := t.clock + 2);
    if aborted {
      t' := t'.(interrupted := true);
    } else if !PauseEnabled(cfg) && step == MaxSteps(cfg) - 1 {
      t' := WrapUp(env, t', StepLimit);
    } else {
      goesOn := true;
    }
  }

  method Ask(env: Env, cfg: Config, t: Turn, step: nat)
    returns (t': Turn, reply: Option<LlmStreamResult>, rejected: bool)
    ensures Recovered(t', reply, rejected) == Answered(env, cfg, t, step)
  {
    rejected := false;
    var sent := "";
    if t.committed.Some? {
      t', reply := t.(committed := None), t.committed;
    } else {
      t', reply, sent := Attempt(env, t, false);
    }
    if reply.Some? && step == 0 && WorthRetrying(reply.value) {
      t', reply, rejected := AskAgain(env, cfg, t', reply.value);
    }
  }

  method TakeReply(env: Env, t: Turn, r: LlmStreamResult) returns (t': Turn, goesOn: bool)
    ensures Stepped(t', goesOn) == Accept(env, t, r)
  {
    goesOn := false;
    t' := t.(lastReason := r.finalReason, response := t.response + r.fullResponse, clock := t.clock + 1);
    if r.interrupted || AbortedNow(env, t) {
      t' := t'.(interrupted := true);
      return;
    }
    if r.finalMessage.Some? {
      t' := t'.(history := t.history + [r.finalMessage.value]);
    }
    goesOn := r.pendingToolCalls != [] && r.finalReason == ToolUse;
  }

  method GoOn(env: Env, cfg: Config, t: Turn, step: nat, r: LlmStreamResult) returns (t': Turn, goesOn: bool)
    ensures Stepped(t', goesOn) == Proceed(env, cfg, t, step, r)
  {
    t', goesOn := TakeReply(env, t, r);
    if !goesOn {
      return;
    }
    t', goesOn := MayRun(env, cfg, t', step, r.pendingToolCalls);
    if !goesOn {
      return;
    }
    t', goesOn := RunPending(env, cfg, t', step, r.pendingToolCalls);
  }

  method UseAnswer(env: Env, cfg: Config, t: Turn, reply: Option<LlmStreamResult>, rejected: bool, step: nat)
    returns (t': Turn, goesOn: bool)
    ensures Stepped(t', goesOn) == AfterAnswer(env, cfg, Recovered(t, reply, rejected), step)
  {
    if reply == None {
      return t.(threw := true), false;
    }
    var r := WithoutTools(reply.value);
    if r.finalReason != Timeout && rejected && IsRecoverable(r) {
      return t.(lastReason := Errored), false;
    }
    t', goesOn := GoOn(env, cfg, t, step, r);
  }

  method RunStep(env: Env, cfg: Config, t: Turn, step: nat) returns (t': Turn, goesOn: bool)
    ensures Stepped(t', goesOn) == StepOnce(env, cfg, t, step)
  {
    hide Answered, AfterAnswer;
    t' := t.(clock := t.clock + 1);
    if AbortedNow(env, t) {
      return t'.(interrupted := true), false;
    }
    var reply, rejected;
    t', reply, rejected := Ask(env, cfg, t', step);
    t', goesOn := UseAnswer(env, cfg, t', reply, rejected, step);
  }

  method RunTurn(env: Env, cfg: Config) returns (t: Turn)
    ensures t == TurnOf(env, cfg)
  {
    hide StepOnce, CredentialFallback;
    t := CredentialFallback(env, cfg, NewTurn(env, cfg));
    if t.threw || t.credentialError {
      return;
    }
    var step := 0;
    var cap := LoopCap(cfg);
    ghost var start := t;
    while step < cap
      invariant step <= cap
      invariant LoopFrom(env, cfg, start, 0) == LoopFrom(env, cfg, t, step)
    {
      var goesOn;
      t, goesOn := RunStep(env, cfg, t, step);
      if !goesOn {
        return;
      }
      step := step + 1;
    }
  }
}

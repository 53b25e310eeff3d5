/**
 What holds of every turn: the requests it makes, the text it shows, and how
 many requests and batches it can take.
 */
module TurnInvariants {
  import opened Options
  import opened Conversation
  import opened LlmStream
  import opened Spaces
  import opened TurnLoop

  // ------------------------------------------------------------------
  // Invariants
  // ------------------------------------------------------------------

  /** Every reply that streams comes from a driver that keeps its promise. */
  ghost predicate DriversOk(env: Env) {
    forall k: nat :: env.replies(k).Streams? ==> DriverOk(env.replies(k).events)
  }

  /** Complete, as long as the drivers keep their promise. */
  ghost predicate Sound(env: Env, h: seq<Message>) {
    DriversOk(env) ==> Complete(h)
  }

  /** The calls are pending. */
  ghost predicate Opens(env: Env, h: seq<Message>, calls: seq<Call>) {
    DriversOk(env) ==> h != [] && Unanswered(h) == Some(calls)
  }

  ghost predicate Matched(env: Env, r: LlmStreamResult) {
    DriversOk(env) ==> ToolsOk(r)
  }

  /** A request without tools whose last message is the instruction. */
  ghost predicate WrapUpOk(env: Env, h: seq<Message>, why: Why) {
    && NoTools(h) && NoAdjacentUsers(h)
    && h != [] && h[|h| - 1].User? && EndsWith(TextOf(h[|h| - 1].content), Instruction(env, why).content.text)
  }

  ghost predicate RequestOk(env: Env, t: Turn, i: nat)
    requires i < |t.requests|
  {
    match t.requests[i]
    case MainRequest(h, _) => Sound(env, h)
    case WrapUpRequest(h) => i == |t.requests| - 1 && t.wrapUp.Some? && WrapUpOk(env, h, t.wrapUp.value)
  }

  /** Main requests are complete; there is at most one wrap-up request, and it is the last. */
  ghost predicate RequestsOk(env: Env, t: Turn) {
    && (forall i :: 0 <= i < |t.requests| ==> RequestOk(env, t, i))
    && (t.wrapUp.Some? ==> t.requests != [] && t.requests[|t.requests| - 1].WrapUpRequest?)
  }

  function PendingText(t: Turn): string {
    if t.committed.Some? then t.committed.value.fullResponse else ""
  }

  /** What was shown is what is stored, plus a reply the loop has yet to take over. */
  ghost predicate TextInv(t: Turn) {
    t.shown == t.response + PendingText(t)
  }

  ghost predicate ReplyOk(env: Env, r: LlmStreamResult) {
    Matched(env, r) && (!r.emittedToUi ==> r.fullResponse == "")
  }

  /** Between two steps. */
  ghost predicate AtHead(env: Env, t: Turn) {
    && !t.threw && !t.interrupted && t.wrapUp.None?
    && TextInv(t)
    && (t.committed.Some? ==> ReplyOk(env, t.committed.value))
    && Sound(env, t.history) && RequestsOk(env, t)
  }

  lemma {:induction false} AnsweringIsSound(env: Env, h: seq<Message>, calls: seq<Call>, results: seq<Message>)
    requires Opens(env, h, calls) && Answers(results, calls)
    ensures Sound(env, h + results)
  {
    if DriversOk(env) {
      AnsweringCompletes(h, calls, results);
    }
  }

  // ------------------------------------------------------------------
  // Asking
  // ------------------------------------------------------------------

  /** The turn made requests with the history it had, and changed nothing else but the text shown. */
  ghost predicate OnlyAsked(t: Turn, t': Turn) {
    && t' == t.(requests := t'.requests, clock := t'.clock, shown := t'.shown, overridden := t'.overridden,
                committed := None)
    && t.clock <= t'.clock
    && t.requests <= t'.requests
    && (forall i :: |t.requests| <= i < |t'.requests| ==> t'.requests[i] == MainRequest(t.history, t.batches))
  }

  lemma {:induction false} AskedKeepsRequests(env: Env, t: Turn, t': Turn)
    requires OnlyAsked(t, t') && RequestsOk(env, t) && t.wrapUp.None? && Sound(env, t.history)
    ensures RequestsOk(env, t')
  {
    forall i | 0 <= i < |t'.requests|
      ensures RequestOk(env, t', i)
    {
      if i < |t.requests| {
        assert RequestOk(env, t, i) && t'.requests[i] == t.requests[i];
      }
    }
  }

  lemma {:induction false} AttemptFacts(env: Env, t: Turn, held: bool)
    requires t.committed.None?
    ensures var a := AttemptStream(env, t, held);
            && OnlyAsked(t, a.turn)
            && a.turn.requests == t.requests + [MainRequest(t.history, t.batches)] && a.turn.overridden == t.overridden
            && a.turn.shown == (if held then t.shown else t.shown + a.sent)
            && (a.result.Some? ==>
                  a.sent == a.result.value.fullResponse && (!a.result.value.emittedToUi ==> a.sent == ""))
  {
    match env.replies(|t.requests|)
    case Streams(es) => SentIsReported(es, t.clock, env.abortAt);
    case Throws(_, _) =>
  }

  lemma {:induction false} AttemptMatched(env: Env, t: Turn, held: bool)
    ensures var a := AttemptStream(env, t, held); a.result.Some? ==> Matched(env, a.result.value)
  {
    match env.replies(|t.requests|)
    case Streams(es) =>
      if DriversOk(env) {
        DriverGivesToolsOk(es, t.clock, env.abortAt);
      }
    case Throws(_, _) =>
  }

  /** The result is what the user saw since `before`; a rejected fallback left no text at all. */
  ghost predicate RecoveredOk(t: Turn, before: string, rec: Recovered, most: nat) {
    && OnlyAsked(t, rec.turn)
    && |rec.turn.requests| <= |t.requests| + most
    && (rec.result.Some? ==> rec.turn.shown == before + rec.result.value.fullResponse)
    && (rec.result.Some? && rec.rejected ==> rec.result.value.fullResponse == "")
  }

  lemma {:induction false} FallbackFacts(env: Env, t: Turn, r: LlmStreamResult)
    requires t.committed.None? && r.fullResponse == ""
    ensures RecoveredOk(t, t.shown, TryFallback(env, t, r), 1)
  {
    AttemptFacts(env, t, true);
    assert t.shown + r.fullResponse == t.shown;
  }

  /** A retry, and a fallback where one is allowed. */
  function MostRecovered(cfg: Config, t: Turn): nat {
    1 + if CanFallback(cfg, t) then 1 else 0
  }

  lemma {:induction false} RecoverFacts(env: Env, cfg: Config, t: Turn, r: LlmStreamResult)
    requires t.committed.None? && !r.emittedToUi && r.fullResponse == ""
    ensures RecoveredOk(t, t.shown, Recover(env, cfg, t, r), MostRecovered(cfg, t))
  {
    hide AttemptStream, TryFallback;
    AttemptFacts(env, t, false);
    assert t.shown + r.fullResponse == t.shown;
    var a := RetryOnce(env, t, r);
    assert a.result.Some? ==> a.turn.shown == t.shown + a.result.value.fullResponse;
    if a.result.Some? && WorthRetrying(a.result.value) && CanFallback(cfg, a.turn) {
      assert a.result.value.fullResponse == "";
      assert a.turn.shown == t.shown;
      FallbackFacts(env, a.turn, a.result.value);
    }
  }

  lemma {:induction false} RecoverMatched(env: Env, cfg: Config, t: Turn, r: LlmStreamResult)
    requires Matched(env, r)
    ensures var rec := Recover(env, cfg, t, r); rec.result.Some? ==> Matched(env, rec.result.value)
  {
    AttemptMatched(env, t, false);
    var a := RetryOnce(env, t, r);
    AttemptMatched(env, a.turn, true);
  }

  /** The most requests a step makes before any wrap-up. */
  function MostAsked(cfg: Config, t: Turn, step: nat): nat {
    (if t.committed.Some? then 0 else 1) + (if step == 0 then MostRecovered(cfg, t) else 0)
  }

  lemma {:induction false} AnsweredFacts(env: Env, cfg: Config, t: Turn, step: nat)
    requires AtHead(env, t)
    ensures var rec := Answered(env, cfg, t, step);
            && RecoveredOk(t, t.response, rec, MostAsked(cfg, t, step))
            && (rec.result.Some? ==> Matched(env, rec.result.value))
  {
    if t.committed.None? {
      AttemptFacts(env, t, false);
      AttemptMatched(env, t, false);
    }
    var a := if t.committed.Some? then Attempted(t.(committed := None), t.committed, "")
             else AttemptStream(env, t, false);
    assert t.response + "" == t.response;
    if a.result.Some? && step == 0 && WorthRetrying(a.result.value) {
      assert a.result.value.fullResponse == "";
      assert a.turn.shown == t.response;
      RecoverFacts(env, cfg, a.turn, a.result.value);
      RecoverMatched(env, cfg, a.turn, a.result.value);
    }
  }

  // ------------------------------------------------------------------
  // Taking over the reply
  // ------------------------------------------------------------------

  /** The reply's text joins the response; with calls pending, its message opens exactly those. */
  lemma {:induction false} AcceptFacts(env: Env, t: Turn, r: LlmStreamResult)
    requires t.shown == t.response + r.fullResponse && Sound(env, t.history)
    requires r.pendingToolCalls != [] ==> Matched(env, r)
    ensures var acc := Accept(env, t, r);
            && acc.turn.shown == acc.turn.response
            && acc.turn.requests == t.requests && acc.turn.batches == t.batches
            && acc.turn.wrapUp == t.wrapUp && acc.turn.committed == t.committed && acc.turn.threw == t.threw
            && (acc.goesOn ==> acc.turn.interrupted == t.interrupted
                               && Opens(env, acc.turn.history, r.pendingToolCalls))
  {
    if Accept(env, t, r).goesOn {
      if DriversOk(env) {
        AssistantOpens(t.history, r.finalMessage.value);
      }
    }
  }

  lemma {:induction false} DroppingToolsIsOk(env: Env, r: LlmStreamResult)
    requires Matched(env, r)
    ensures WithoutTools(r).fullResponse == r.fullResponse
    ensures WithoutTools(r).pendingToolCalls != [] ==> Matched(env, WithoutTools(r))
  {
  }

  // ------------------------------------------------------------------
  // The wrap-up and the batch
  // ------------------------------------------------------------------

  /** Nothing but the verdict and the summary changed. */
  ghost predicate SummaryShape(t: Turn, t': Turn) {
    && t' == t.(history := t'.history, clock := t'.clock, interrupted := t'.interrupted,
                lastReason := t'.lastReason, wrapUpText := t'.wrapUpText)
    && (t'.history == t.history
        || (t'.wrapUpText.Some? && t'.history == t.history + [Assistant(Plain(t'.wrapUpText.value), None)]))
  }

  /** Besides, one wrap-up request was made. */
  ghost predicate WrapUpShape(env: Env, t: Turn, t': Turn, why: Why) {
    exists taken: nat :: SummaryShape(Wrapping(t, why, Flatten(t.history + [Instruction(env, why)]), taken), t')
  }

  lemma {:induction false} SummarisedHasShape(env: Env, t: Turn, r: LlmStreamResult)
    ensures SummaryShape(t, Summarised(env, t, r))
  {
  }

  lemma {:induction false} AfterWrapUpHasShape(env: Env, t: Turn, reply: Option<LlmStreamResult>)
    ensures SummaryShape(t, AfterWrapUp(env, t, reply))
  {
    if reply.Some? {
      SummarisedHasShape(env, t, reply.value);
    }
  }

  lemma {:induction false} WrapUpHasShape(env: Env, t: Turn, why: Why)
    ensures WrapUpShape(env, t, WrapUpStep(env, t, why), why)
  {
    hide StreamOf, Flatten, AfterWrapUp, Wrapping, SummaryShape;
    var a := AskSummary(env, t, why);
    AfterWrapUpHasShape(env, a.turn, a.result);
  }

  lemma {:induction false} WrapUpRequestOk(env: Env, h: seq<Message>, why: Why)
    ensures WrapUpOk(env, Flatten(h + [Instruction(env, why)]), why)
  {
    FlattenIsPlain(h + [Instruction(env, why)]);
    InstructionComesLast(h, Instruction(env, why).content.text);
  }

  /** What a wrap-up leaves: one request more, the last one; a complete history; the text as it was. */
  ghost predicate WrappedUp(env: Env, t: Turn, t': Turn, why: Why) {
    && RequestsOk(env, t') && |t'.requests| == |t.requests| + 1 && t'.batches == t.batches
    && t'.wrapUp == Some(why) && Sound(env, t'.history)
    && t'.shown == t.shown && t'.response == t.response && t'.threw == t.threw && t'.committed == t.committed
  }

  lemma {:induction false} ShapeWrapsUp(env: Env, t: Turn, t': Turn, why: Why)
    requires Sound(env, t.history) && RequestsOk(env, t) && t.wrapUp.None?
    requires WrapUpShape(env, t, t', why)
    ensures WrappedUp(env, t, t', why)
  {
    var taken: nat :| SummaryShape(Wrapping(t, why, Flatten(t.history + [Instruction(env, why)]), taken), t');
    WrapUpRequestOk(env, t.history, why);
    forall i | 0 <= i < |t'.requests|
      ensures RequestOk(env, t', i)
    {
      if i < |t.requests| {
        assert RequestOk(env, t, i);
      }
    }
    if t'.history != t.history {
      if DriversOk(env) {
        AssistantOpens(t.history, t'.history[|t.history|]);
      }
    }
  }

  lemma {:induction false} WrapUpFacts(env: Env, t: Turn, why: Why)
    requires Sound(env, t.history) && RequestsOk(env, t) && t.wrapUp.None?
    ensures WrappedUp(env, t, WrapUpStep(env, t, why), why)
  {
    WrapUpHasShape(env, t, why);
    ShapeWrapsUp(env, t, WrapUpStep(env, t, why), why);
  }

  /** Stopping answers every pending call without running it. */
  lemma {:induction false} StopFacts(env: Env, t: Turn, calls: seq<Call>, why: Why)
    requires Opens(env, t.history, calls) && RequestsOk(env, t) && t.wrapUp.None?
    ensures WrappedUp(env, t, StopBeforeBatch(env, t, calls, why), why)
  {
    AnsweringIsSound(env, t.history, calls, NotExecuted(calls, NOT_EXECUTED_TEXT));
    var t1 := t.(history := t.history + NotExecuted(calls, NOT_EXECUTED_TEXT));
    forall i | 0 <= i < |t1.requests|
      ensures RequestOk(env, t1, i)
    {
      assert RequestOk(env, t, i);
    }
    WrapUpFacts(env, t1, why);
  }

  // ------------------------------------------------------------------
  // One step
  // ------------------------------------------------------------------

  function WrapUps(t: Turn): nat {
    if t.wrapUp.Some? then 1 else 0
  }

  /** A reply with calls has been taken over. */
  ghost predicate Ready(env: Env, t: Turn, calls: seq<Call>) {
    && !t.threw && !t.interrupted && t.wrapUp.None? && t.committed.None? && t.shown == t.response
    && Opens(env, t.history, calls) && RequestsOk(env, t)
  }

  /** What holds whenever the turn ends without an exception. */
  ghost predicate Fine(env: Env, t: Turn) {
    && !t.threw && TextInv(t) && RequestsOk(env, t)
    && (t.wrapUp.Some? ==> Sound(env, t.history))
  }

  /** At most `ran` batches and `asked` requests, not counting a wrap-up. */
  ghost predicate Within(t: Turn, t': Turn, ran: nat, asked: nat) {
    && t.batches <= t'.batches <= t.batches + ran
    && |t'.requests| <= |t.requests| + asked + WrapUps(t')
  }

  lemma {:induction false} SameRequestsOk(env: Env, t: Turn, t': Turn)
    requires RequestsOk(env, t) && t'.requests == t.requests && t'.wrapUp == t.wrapUp
    ensures RequestsOk(env, t')
  {
    forall i | 0 <= i < |t'.requests|
      ensures RequestOk(env, t', i)
    {
      assert RequestOk(env, t, i);
    }
  }

  /** A turn that ended without running anything. */
  ghost predicate EndedHere(env: Env, t: Turn, t': Turn) {
    Within(t, t', 0, 0) && Fine(env, t') && t'.committed == t.committed
  }

  lemma {:induction false} WrappedUpEnds(env: Env, t: Turn, t0: Turn, t': Turn, why: Why)
    requires WrappedUp(env, t0, t', why) && !t.threw && t.committed.None? && t.shown == t.response
    requires t0.batches == t.batches && t0.requests == t.requests
    requires t0.shown == t.shown && t0.response == t.response && t0.threw == t.threw && t0.committed == t.committed
    ensures EndedHere(env, t, t')
  {
    assert t.response + "" == t.response;
  }

  /** A stop before the batch runs nothing and answers every pending call. */
  lemma {:induction false} StopEnds(env: Env, t: Turn, clock: nat, calls: seq<Call>, why: Why)
    requires Ready(env, t, calls)
    ensures EndedHere(env, t, StopBeforeBatch(env, t.(clock := clock), calls, why))
    ensures Sound(env, StopBeforeBatch(env, t.(clock := clock), calls, why).history)
  {
    var t1 := t.(clock := clock);
    SameRequestsOk(env, t, t1);
    StopFacts(env, t1, calls, why);
    WrappedUpEnds(env, t, t1, StopBeforeBatch(env, t1, calls, why), why);
  }

  lemma {:induction false} InterruptedAtPause(env: Env, t: Turn, calls: seq<Call>, t': Turn)
    requires Ready(env, t, calls)
    requires t' == t.(clock := t'.clock, history := t.history + NotExecuted(calls, NOT_EXECUTED_TEXT),
                      interrupted := true)
    ensures EndedHere(env, t, t') && Sound(env, t'.history)
  {
    AnsweringIsSound(env, t.history, calls, NotExecuted(calls, NOT_EXECUTED_TEXT));
    SameRequestsOk(env, t, t');
    assert t.response + "" == t.response;
  }

  lemma {:induction false} LimitsFacts(env: Env, cfg: Config, t: Turn, step: nat, calls: seq<Call>)
    requires Ready(env, t, calls)
    ensures var lim := CheckLimits(env, cfg, t, step, calls);
            if lim.goesOn
            then Ready(env, lim.turn, calls) && lim.turn.requests == t.requests && lim.turn.batches == t.batches
                 && (PauseEnabled(cfg) ==> step + 1 < HardMaxSteps(cfg))
            else EndedHere(env, t, lim.turn) && Sound(env, lim.turn.history)
  {
    hide StopBeforeBatch;
    var lim := CheckLimits(env, cfg, t, step, calls);
    if lim.goesOn {
      SameRequestsOk(env, t, lim.turn);
    } else if cfg.headless && env.overBudget(step) {
      StopEnds(env, t, t.clock, calls, BudgetExceeded);
      assert t.(clock := t.clock) == t;
    } else if step + 1 >= HardMaxSteps(cfg) {
      StopEnds(env, t, t.clock, calls, HardCeiling);
      assert t.(clock := t.clock) == t;
    } else if AbortedNow(env, t) {
      InterruptedAtPause(env, t, calls, lim.turn);
    } else {
      StopEnds(env, t, t.clock + 1, calls, StoppedAtPause);
    }
  }

  lemma {:induction false} BatchFacts(env: Env, cfg: Config, t: Turn, step: nat, calls: seq<Call>)
    requires Ready(env, t, calls)
    ensures var run := RunBatch(env, cfg, t, step, calls);
            && Within(t, run.turn, 1, 0) && run.turn.committed.None?
            && if run.goesOn
               then AtHead(env, run.turn) && run.turn.batches == t.batches + 1
               else Fine(env, run.turn)
  {
    hide WrapUpStep;
    var run := RunBatch(env, cfg, t, step, calls);
    var results := BatchResults(env, t.batches, calls);
    assert t.response + "" == t.response;
    if AbortedNow(env, t) {
      SameRequestsOk(env, t, run.turn);
    } else {
      AnsweringIsSound(env, t.history, calls, results);
      var t2 := t.(history := t.history + results, batches := t.batches + 1, clock := t.clock + 2);
      SameRequestsOk(env, t, t2);
      if AbortedNow(env, t.(clock := t.clock + 1)) {
        SameRequestsOk(env, t, run.turn);
      } else if !run.goesOn {
        WrapUpFacts(env, t2, StepLimit);
        WrappedUpEnds(env, t2, t2, WrapUpStep(env, t2, StepLimit), StepLimit);
      }
    }
  }

  /** Batches a step may run: none at the ceiling. */
  function MostRun(cfg: Config, step: nat): nat {
    if PauseEnabled(cfg) && step + 1 >= HardMaxSteps(cfg) then 0 else 1
  }

  /** What a step leaves, made with at most `asked` requests besides a wrap-up. */
  ghost predicate StepOk(env: Env, cfg: Config, t: Turn, step: nat, s: Stepped, asked: nat) {
    && Within(t, s.turn, MostRun(cfg, step), asked)
    && RequestsOk(env, s.turn)
    && (!s.goesOn && !s.turn.threw ==> Fine(env, s.turn))
    && (s.goesOn ==> AtHead(env, s.turn) && s.turn.batches == t.batches + 1)
    && (s.goesOn && PauseEnabled(cfg) ==> step + 1 < HardMaxSteps(cfg))
  }

  /** The reply has been shown, and nothing else is open. */
  ghost predicate Shown(env: Env, t: Turn, r: LlmStreamResult) {
    && !t.threw && !t.interrupted && t.wrapUp.None? && t.committed.None?
    && Sound(env, t.history) && RequestsOk(env, t)
    && t.shown == t.response + r.fullResponse
  }

  lemma {:induction false} ProceedFacts(env: Env, cfg: Config, t: Turn, step: nat, r: LlmStreamResult)
    requires Shown(env, t, r) && (r.pendingToolCalls != [] ==> Matched(env, r))
    ensures StepOk(env, cfg, t, step, Proceed(env, cfg, t, step, r), 0)
    ensures Proceed(env, cfg, t, step, r).turn.committed.None?
  {
    AcceptFacts(env, t, r);
    var acc := Accept(env, t, r);
    SameRequestsOk(env, t, acc.turn);
    assert acc.turn.response + "" == acc.turn.response;
    if acc.goesOn {
      assert Ready(env, acc.turn, r.pendingToolCalls);
      LimitsFacts(env, cfg, acc.turn, step, r.pendingToolCalls);
      var lim := CheckLimits(env, cfg, acc.turn, step, r.pendingToolCalls);
      if lim.goesOn {
        BatchFacts(env, cfg, lim.turn, step, r.pendingToolCalls);
      }
    }
  }

  lemma {:induction false} AfterAnswerFacts(env: Env, cfg: Config, t: Turn, step: nat, rec: Recovered, most: nat)
    requires AtHead(env, t) && RecoveredOk(t, t.response, rec, most)
    requires rec.result.Some? ==> Matched(env, rec.result.value)
    ensures StepOk(env, cfg, t, step, AfterAnswer(env, cfg, rec, step), most)
    ensures AfterAnswer(env, cfg, rec, step).turn.committed.None?
  {
    hide Proceed;
    AskedKeepsRequests(env, t, rec.turn);
    var s := AfterAnswer(env, cfg, rec, step);
    if rec.result.None? {
      SameRequestsOk(env, rec.turn, s.turn);
    } else {
      DroppingToolsIsOk(env, rec.result.value);
      var r := WithoutTools(rec.result.value);
      if r.finalReason != Timeout && rec.rejected && IsRecoverable(r) {
        SameRequestsOk(env, rec.turn, s.turn);
      } else {
        ProceedFacts(env, cfg, rec.turn, step, r);
      }
    }
  }

  lemma {:induction false} StepFacts(env: Env, cfg: Config, t: Turn, step: nat)
    requires AtHead(env, t)
    ensures StepOk(env, cfg, t, step, StepOnce(env, cfg, t, step), MostAsked(cfg, t, step))
    ensures StepOnce(env, cfg, t, step).turn.committed == if AbortedNow(env, t) then t.committed else None
    ensures AbortedNow(env, t) ==>
              !StepOnce(env, cfg, t, step).goesOn && StepOnce(env, cfg, t, step).turn.requests == t.requests
  {
    hide Answered, AfterAnswer;
    var t0 := t.(clock := t.clock + 1);
    SameRequestsOk(env, t, t0);
    if AbortedNow(env, t) {
      SameRequestsOk(env, t, StepOnce(env, cfg, t, step).turn);
    } else {
      AnsweredFacts(env, cfg, t0, step);
      AfterAnswerFacts(env, cfg, t0, step, Answered(env, cfg, t0, step), MostAsked(cfg, t, step));
    }
  }

  // ------------------------------------------------------------------
  // The whole loop
  // ------------------------------------------------------------------

  /** With a sink that can pause, the batch pending at the ceiling never runs. */
  function MostBatches(cfg: Config): nat {
    if PauseEnabled(cfg) then HardMaxSteps(cfg) - 1 else MaxSteps(cfg)
  }

  /** The most requests from here to the end of the loop, not counting a wrap-up. */
  function MostLeft(cfg: Config, t: Turn, step: nat): int {
    LoopCap(cfg) - step + (if step == 0 then MostRecovered(cfg, t) else 0) - (if t.committed.Some? then 1 else 0)
  }

  ghost predicate CanStep(cfg: Config, t: Turn, step: nat) {
    && t.batches == step < LoopCap(cfg)
    && (t.committed.Some? ==> step == 0)
  }

  ghost predicate LoopOk(env: Env, cfg: Config, t: Turn, step: nat, e: Turn) {
    && RequestsOk(env, e)
    && (!e.threw ==> Fine(env, e))
    && e.batches <= MostBatches(cfg)
    && |e.requests| <= |t.requests| + MostLeft(cfg, t, step) + WrapUps(e)
    && (step == 0 ==> e.committed == if AbortedNow(env, t) then t.committed else None)
    && (step > 0 ==> e.committed.None?)
    && (step == 0 && AbortedNow(env, t) ==> e.requests == t.requests)
  }

  /** Without a sink that can pause, the loop may also run out of steps. */
  ghost predicate ReadyFor(cfg: Config, t: Turn, step: nat) {
    || CanStep(cfg, t, step)
    || (step > 0 && t.batches == step == MaxSteps(cfg) && !PauseEnabled(cfg) && t.committed.None?)
  }

  /** The loop ends with the step, or goes on after it. */
  ghost predicate StepLeads(env: Env, cfg: Config, t: Turn, step: nat, s: Stepped, e: Turn) {
    && StepOk(env, cfg, t, step, s, MostAsked(cfg, t, step))
    && s.turn.committed == (if AbortedNow(env, t) then t.committed else None)
    && (AbortedNow(env, t) ==> !s.goesOn && s.turn.requests == t.requests)
    && e == if s.goesOn then LoopFrom(env, cfg, s.turn, step + 1) else s.turn
  }

  lemma {:induction false} LoopStep(env: Env, cfg: Config, t: Turn, step: nat, s: Stepped, e: Turn)
    requires CanStep(cfg, t, step) && AtHead(env, t) && StepLeads(env, cfg, t, step, s, e)
    ensures s.goesOn ==> AtHead(env, s.turn) && ReadyFor(cfg, s.turn, step + 1)
    ensures (s.goesOn ==> LoopOk(env, cfg, s.turn, step + 1, e)) ==> LoopOk(env, cfg, t, step, e)
  {
  }

  lemma {:induction false} TakeStep(env: Env, cfg: Config, t: Turn, step: nat, e: Turn) returns (s: Stepped)
    requires AtHead(env, t) && step < LoopCap(cfg) && e == LoopFrom(env, cfg, t, step)
    ensures StepLeads(env, cfg, t, step, s, e)
  {
    StepFacts(env, cfg, t, step);
    s := StepOnce(env, cfg, t, step);
  }

  lemma {:induction false} LoopFacts(env: Env, cfg: Config, t: Turn, step: nat, e: Turn)
    requires AtHead(env, t)
    requires ReadyFor(cfg, t, step)
    requires e == LoopFrom(env, cfg, t, step)
    ensures LoopOk(env, cfg, t, step, e)
    decreases LoopCap(cfg) - step
  {
    hide StepOnce;
    if step < LoopCap(cfg) {
      var s := TakeStep(env, cfg, t, step, e);
      LoopStep(env, cfg, t, step, s, e);
      if s.goesOn {
        LoopFacts(env, cfg, s.turn, step + 1, e);
      }
    }
  }

  // ------------------------------------------------------------------
  // Before the loop
  // ------------------------------------------------------------------

  predicate TriesFallbackFirst(cfg: Config) {
    cfg.credentialError && cfg.fallbackConfigured && !cfg.modelOverridden
  }

  /**
   The fallback asked for before the loop throws an abort error although the
   signal has not fired: the error is dropped and the loop starts afresh.
   */
  predicate StrayAbort(env: Env, cfg: Config) {
    && TriesFallbackFirst(cfg) && env.fallbackAuth == SignedIn && env.prepare == Prepared
    && env.replies(0).Throws? && env.replies(0).isAbort
    && !AbortedAt(env.abortAt, 2)
  }

  /** The turn as it enters the loop. */
  function Entering(env: Env, cfg: Config): Turn {
    CredentialFallback(env, cfg, NewTurn(env, cfg))
  }

  ghost predicate EnteringOk(env: Env, cfg: Config, t: Turn) {
    && t.batches == 0 && t.wrapUp.None? && |t.requests| <= 1
    && RequestsOk(env, t)
    && (!t.threw ==> TextInv(t))
    && t.overridden == (cfg.modelOverridden || t.committed.Some?)
    && (!t.threw && !t.credentialError ==>
          && AtHead(env, t)
          && (t.requests != [] && t.committed.None? ==> AbortedNow(env, t) || StrayAbort(env, cfg)))
  }

  lemma {:induction false} NewTurnAtHead(env: Env, cfg: Config)
    ensures AtHead(env, NewTurn(env, cfg))
  {
    var h := NewTurn(env, cfg).history;
    assert h[..|h| - 1] == [] && Unanswered(h[..|h| - 1]) == Some([]);
  }

  lemma {:induction false} AskFirstFacts(env: Env, cfg: Config)
    requires TriesFallbackFirst(cfg) && env.fallbackAuth == SignedIn && env.prepare == Prepared
    ensures EnteringOk(env, cfg, AskFallbackFirst(env, NewTurn(env, cfg).(clock := 1)))
  {
    NewTurnAtHead(env, cfg);
    var u := NewTurn(env, cfg).(clock := 1);
    var c := AskFallbackFirst(env, u);
    AttemptFacts(env, u, true);
    AttemptMatched(env, u, true);
    var a := AttemptStream(env, u, true);
    SameRequestsOk(env, NewTurn(env, cfg), u);
    AskedKeepsRequests(env, u, a.turn);
    SameRequestsOk(env, a.turn, c);
  }

  lemma {:induction false} CredentialFacts(env: Env, cfg: Config)
    ensures EnteringOk(env, cfg, Entering(env, cfg))
  {
    NewTurnAtHead(env, cfg);
    var t := NewTurn(env, cfg);
    if TriesFallbackFirst(cfg) && !AbortedNow(env, t) && env.fallbackAuth == SignedIn && env.prepare == Prepared {
      AskFirstFacts(env, cfg);
    } else {
      SameRequestsOk(env, t, Entering(env, cfg));
    }
  }

  // ------------------------------------------------------------------
  // Every turn
  // ------------------------------------------------------------------

  lemma {:induction false} TurnFacts(env: Env, cfg: Config)
    ensures var t := Entering(env, cfg);
            var e := TurnOf(env, cfg);
            && EnteringOk(env, cfg, t)
            && if t.threw || t.credentialError then e == t else LoopOk(env, cfg, t, 0, e)
  {
    CredentialFacts(env, cfg);
    var t := Entering(env, cfg);
    if !t.threw && !t.credentialError {
      LoopFacts(env, cfg, t, 0, LoopFrom(env, cfg, t, 0));
    }
  }

  /**
   There is at most one wrap-up request, the last, without tools or adjacent user
   messages and ending with its instruction. As long as the drivers keep their
   promise, every main request answers each tool call once and in order, and so
   does the history after a wrap-up, with no user message but the first.
   */
  lemma {:induction false} RequestsAreWellFormed(env: Env, cfg: Config)
    ensures var e := TurnOf(env, cfg);
            && RequestsOk(env, e)
            && (e.wrapUp.Some? && !e.threw ==> Sound(env, e.history))
  {
    TurnFacts(env, cfg);
  }

  /** A reply obtained before the loop that the loop never takes over, because the signal fired in between. */
  predicate LosesReply(env: Env, cfg: Config) {
    var t := Entering(env, cfg);
    !t.threw && !t.credentialError && t.committed.Some? && t.committed.value.fullResponse != "" && AbortedNow(env, t)
  }

  /** The user has seen exactly what is stored, unless a reply was lost. */
  lemma {:induction false} ShownIsStoredIff(env: Env, cfg: Config)
    requires !TurnOf(env, cfg).threw
    ensures TurnOf(env, cfg).shown == TurnOf(env, cfg).response <==> !LosesReply(env, cfg)
  {
    TurnFacts(env, cfg);
    var e := TurnOf(env, cfg);
    assert |e.shown| == |e.response| + |PendingText(e)|;
    if PendingText(e) == "" {
      assert e.response + "" == e.response;
    }
  }

  /** Besides the steps: a retry, a fallback where one is allowed, and a wrap-up. */
  function MostRequests(cfg: Config): nat {
    LoopCap(cfg) + 2 + if cfg.fallbackConfigured && !cfg.modelOverridden then 1 else 0
  }

  lemma {:induction false} RequestsBoundedUnlessStray(env: Env, cfg: Config)
    ensures |TurnOf(env, cfg).requests| <= MostRequests(cfg) + if StrayAbort(env, cfg) then 1 else 0
  {
    TurnFacts(env, cfg);
  }

  /** If the request made before the loop throws an abort error, the signal has fired by then. */
  predicate AbortErrorsAreSignalled(env: Env) {
    env.replies(0).Throws? && env.replies(0).isAbort ==> AbortedAt(env.abortAt, 2)
  }

  /** A turn makes at most one request a step and two more, or three with a fallback. */
  lemma {:induction false} RequestsAreBounded(env: Env, cfg: Config)
    requires AbortErrorsAreSignalled(env) || !TriesFallbackFirst(cfg)
    ensures |TurnOf(env, cfg).requests| <= MostRequests(cfg) <= LoopCap(cfg) + 3
  {
    RequestsBoundedUnlessStray(env, cfg);
  }

  lemma {:induction false} BatchesAreBounded(env: Env, cfg: Config)
    ensures TurnOf(env, cfg).batches <= MostBatches(cfg)
  {
    TurnFacts(env, cfg);
  }
}

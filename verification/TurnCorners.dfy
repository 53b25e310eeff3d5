/**
 How far a turn can go. The bound on its requests is reached whatever the
 configuration, and in the one corner where it can happen, after a failed sign-in,
 a reply is shown but not stored.
 */
module TurnCorners {
  import opened Options
  import opened Conversation
  import opened LlmStream
  import opened Spaces
  import opened TurnLoop
  import opened TurnInvariants

  const SOME_CALL := Call("c", "t", "")

  const TOOL_REPLY: seq<StreamEvent> :=
    [ToolCallEnd(SOME_CALL), DoneEvent(ToolUse, Some(Assistant(Plain(""), Some([SOME_CALL]))))]

  const CUT_OFF: seq<StreamEvent> := [ErrorEvent(Errored, None, true, Some(PrematureEnd), false)]

  /** The first replies are cut off, all later ones ask for a tool. */
  function LongReply(cutOff: nat, k: nat): Reply {
    Streams(if k < cutOff then CUT_OFF else TOOL_REPLY)
  }

  function LongEnv(cutOff: nat): Env {
    Env("", (k: nat) => LongReply(cutOff, k), (_, _) => ("", false), _ => false, _ => Continue, SignedIn, Prepared,
        _ => "", None)
  }

  lemma {:induction false} FeedsTwo(a: StreamEvent, b: StreamEvent)
    ensures FeedAll(Streamed(EMPTY_RESULT, []), [a]) == Feed(Streamed(EMPTY_RESULT, []), a)
    ensures FeedAll(Streamed(EMPTY_RESULT, []), [a, b]) == Feed(Feed(Streamed(EMPTY_RESULT, []), a), b)
  {
    assert [a][..0] == [] && [a, b][..1] == [a];
  }

  /** What the tool reply amounts to. */
  predicate WantsTool(r: LlmStreamResult) {
    && r.finalReason == ToolUse && r.pendingToolCalls == [SOME_CALL] && !r.interrupted && r.doneReceived
    && r.errorKind.None? && r.status.None? && !r.transient
  }

  lemma {:induction false} ToolReplyFacts(cutOff: nat, t: Turn, held: bool)
    requires |t.requests| >= cutOff
    ensures var a := AttemptStream(LongEnv(cutOff), t, held);
            && a.result.Some? && WantsTool(a.result.value)
            && a.turn.requests == t.requests + [MainRequest(t.history, t.batches)] && a.turn.committed == t.committed
  {
    FeedsTwo(TOOL_REPLY[0], TOOL_REPLY[1]);
    assert TOOL_REPLY[..2] == TOOL_REPLY;
  }

  predicate WasCutOff(r: LlmStreamResult) {
    && r.finalReason == Errored && !r.interrupted && !r.emittedToUi && !r.emittedToolCall && r.retryable
    && r.errorKind == Some(PrematureEnd) && r.status.None? && !r.transient
  }

  lemma {:induction false} CutOffFacts(cutOff: nat, t: Turn, held: bool)
    requires |t.requests| < cutOff
    ensures var a := AttemptStream(LongEnv(cutOff), t, held);
            && a.result.Some? && WasCutOff(a.result.value)
            && a.turn.requests == t.requests + [MainRequest(t.history, t.batches)]
            && a.turn.committed == t.committed && a.turn.overridden == t.overridden
  {
    FeedsTwo(CUT_OFF[0], CUT_OFF[0]);
    assert CUT_OFF[..1] == CUT_OFF;
  }

  lemma {:induction false} AcceptsTool(cutOff: nat, t: Turn, r: LlmStreamResult)
    requires WantsTool(r)
    ensures var s := Accept(LongEnv(cutOff), t, r);
            s.goesOn && s.turn.requests == t.requests && s.turn.committed == t.committed
  {
  }

  lemma {:induction false} StopsAtCeiling(cutOff: nat, cfg: Config, t: Turn, step: nat, calls: seq<Call>)
    requires step < LoopCap(cfg)
    ensures var s := CheckLimits(LongEnv(cutOff), cfg, t, step, calls);
            && s.goesOn == !(PauseEnabled(cfg) && step + 1 == LoopCap(cfg))
            && |s.turn.requests| == |t.requests| + (if s.goesOn then 0 else 1)
            && s.turn.committed == t.committed
  {
    hide WrapUpStep;
    var t1 := t.(history := t.history + NotExecuted(calls, NOT_EXECUTED_TEXT));
    WrapUpHasShape(LongEnv(cutOff), t1, HardCeiling);
  }

  lemma {:induction false} StopsAtLimit(cutOff: nat, cfg: Config, t: Turn, step: nat, calls: seq<Call>)
    requires step < LoopCap(cfg)
    ensures var s := RunBatch(LongEnv(cutOff), cfg, t, step, calls);
            && s.goesOn == !(!PauseEnabled(cfg) && step + 1 == LoopCap(cfg))
            && |s.turn.requests| == |t.requests| + (if s.goesOn then 0 else 1)
            && s.turn.committed == t.committed
  {
    hide WrapUpStep;
    var t2 := t.(history := t.history + BatchResults(LongEnv(cutOff), t.batches, calls), batches := t.batches + 1,
                 clock := t.clock + 2);
    WrapUpHasShape(LongEnv(cutOff), t2, StepLimit);
  }

  /** A step that got the tool reply goes on, until the last one wraps up. */
  lemma {:induction false} ProceedsToTheEnd(cutOff: nat, cfg: Config, t: Turn, step: nat, r: LlmStreamResult)
    requires WantsTool(r) && step < LoopCap(cfg) && t.committed.None?
    ensures var s := Proceed(LongEnv(cutOff), cfg, t, step, r);
            && s.goesOn == (step + 1 < LoopCap(cfg))
            && |s.turn.requests| == |t.requests| + (if s.goesOn then 0 else 1)
            && s.turn.committed.None?
  {
    hide Accept, CheckLimits, RunBatch;
    AcceptsTool(cutOff, t, r);
    var t1 := Accept(LongEnv(cutOff), t, r).turn;
    StopsAtCeiling(cutOff, cfg, t1, step, r.pendingToolCalls);
    StopsAtLimit(cutOff, cfg, CheckLimits(LongEnv(cutOff), cfg, t1, step, r.pendingToolCalls).turn, step,
                 r.pendingToolCalls);
  }

  /** From a later step on: a request for each step and the wrap-up. */
  lemma {:induction false} LaterSteps(cutOff: nat, cfg: Config, t: Turn, step: nat, e: Turn)
    requires 0 < step < LoopCap(cfg) && |t.requests| >= cutOff && t.committed.None?
    requires e == LoopFrom(LongEnv(cutOff), cfg, t, step)
    ensures |e.requests| == |t.requests| + (LoopCap(cfg) - step) + 1
    decreases LoopCap(cfg) - step
  {
    hide Proceed, AttemptStream;
    var t0 := t.(clock := t.clock + 1);
    var a := AttemptStream(LongEnv(cutOff), t0, false);
    ToolReplyFacts(cutOff, t0, false);
    ProceedsToTheEnd(cutOff, cfg, a.turn, step, a.result.value);
    var s := Proceed(LongEnv(cutOff), cfg, a.turn, step, a.result.value);
    assert StepOnce(LongEnv(cutOff), cfg, t, step) == s;
    if s.goesOn {
      LaterSteps(cutOff, cfg, s.turn, step + 1, e);
    }
  }

  /** The most replies that can be cut off before one gets through. */
  function MostCutOff(cfg: Config): nat {
    if cfg.fallbackConfigured && !cfg.modelOverridden then 2 else 1
  }

  /** The first step: cut off, retried, with a fallback cut off again, and answered. */
  lemma {:induction false} FirstAnswer(cfg: Config, t: Turn)
    requires t.requests == [] && t.committed.None? && t.overridden == cfg.modelOverridden
    ensures var rec := Answered(LongEnv(MostCutOff(cfg)), cfg, t, 0);
            && rec.result.Some? && WantsTool(rec.result.value) && !rec.rejected
            && |rec.turn.requests| == MostCutOff(cfg) + 1 && rec.turn.committed.None?
  {
    hide AttemptStream;
    var n := MostCutOff(cfg);
    CutOffFacts(n, t, false);
    var a := AttemptStream(LongEnv(n), t, false);
    if n == 2 {
      CutOffFacts(n, a.turn, false);
      var b := AttemptStream(LongEnv(n), a.turn, false);
      ToolReplyFacts(n, b.turn, true);
    } else {
      ToolReplyFacts(n, a.turn, false);
    }
  }

  /** The bound on the requests is reached, whatever the limits and the sink. */
  lemma {:induction false} BoundIsReached(cfg: Config)
    requires !cfg.credentialError
    ensures |TurnOf(LongEnv(MostCutOff(cfg)), cfg).requests| == MostRequests(cfg)
  {
    hide Answered, Proceed;
    var env := LongEnv(MostCutOff(cfg));
    var t := NewTurn(env, cfg);
    assert Entering(env, cfg) == t;
    var t0 := t.(clock := t.clock + 1);
    FirstAnswer(cfg, t0);
    var rec := Answered(env, cfg, t0, 0);
    ProceedsToTheEnd(MostCutOff(cfg), cfg, rec.turn, 0, rec.result.value);
    var s := Proceed(env, cfg, rec.turn, 0, rec.result.value);
    assert StepOnce(env, cfg, t, 0) == s;
    if s.goesOn {
      LaterSteps(MostCutOff(cfg), cfg, s.turn, 1, LoopFrom(env, cfg, s.turn, 1));
    }
  }

  /** The most requests a turn can make, exactly: for each configuration, over all environments. */
  lemma {:induction false} MostRequestsIsExact(cfg: Config, n: nat)
    requires !cfg.credentialError
    ensures (forall env :: |TurnOf(env, cfg).requests| <= n) <==> n >= MostRequests(cfg)
  {
    BoundIsReached(cfg);
    forall env
      ensures |TurnOf(env, cfg).requests| <= MostRequests(cfg)
    {
      RequestsAreBounded(env, cfg);
    }
  }

  // ------------------------------------------------------------------
  // The reply that is shown but not stored
  // ------------------------------------------------------------------

  const ANSWER: seq<StreamEvent> := [TextDelta("a"), DoneEvent(Stop, Some(Assistant(Plain("a"), None)))]

  /** The fallback answers before the loop, and the signal fires just after its last event. */
  const LATE_ABORT_ENV: Env :=
    Env("", _ => Streams(ANSWER), (_, _) => ("", false), _ => false, _ => Continue, SignedIn, Prepared,
        _ => "", Some(3))

  lemma {:induction false} AnswerFacts()
    ensures var s := StreamOf(ANSWER, 1, Some(3));
            FinishedCleanly(s.result) && s.result.fullResponse == Concat(s.sent) == "a"
  {
    FeedsTwo(ANSWER[0], ANSWER[1]);
    assert ANSWER[..2] == ANSWER;
    var s := StreamOf(ANSWER, 1, Some(3));
    assert s == Feed(Feed(Streamed(EMPTY_RESULT, []), ANSWER[0]), ANSWER[1]);
    assert s.sent == ["a"] && s.sent[..0] == [];
    assert !IsSpace(s.result.fullResponse[0]);
  }

  lemma {:induction false} LateAbortLosesReply(cfg: Config)
    requires TriesFallbackFirst(cfg)
    ensures var e := TurnOf(LATE_ABORT_ENV, cfg);
            !e.threw && e.interrupted && e.shown == "a" && e.response == ""
  {
    AnswerFacts();
    hide StreamOf, FinishedCleanly, Concat, AfterAnswer, Answered;
    var u := NewTurn(LATE_ABORT_ENV, cfg).(clock := 1);
    assert AttemptStream(LATE_ABORT_ENV, u, true).result == Some(StreamOf(ANSWER, 1, Some(3)).result);
    var c := Entering(LATE_ABORT_ENV, cfg);
    assert c.shown == "a" && c.clock == 3 && c.committed.Some?;
    assert StepOnce(LATE_ABORT_ENV, cfg, c, 0) == Stepped(c.(clock := 4, interrupted := true), false);
  }

  /** What is shown is sure to be stored exactly when the turn never asks the fallback first. */
  lemma {:induction false} ShownIsAlwaysStoredIff(cfg: Config)
    ensures (forall env :: !TurnOf(env, cfg).threw ==> TurnOf(env, cfg).shown == TurnOf(env, cfg).response)
            <==> !TriesFallbackFirst(cfg)
  {
    if TriesFallbackFirst(cfg) {
      LateAbortLosesReply(cfg);
    } else {
      forall env | !TurnOf(env, cfg).threw
        ensures TurnOf(env, cfg).shown == TurnOf(env, cfg).response
      {
        ShownIsStoredIff(env, cfg);
      }
    }
  }
}

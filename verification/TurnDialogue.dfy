/**
 What a turn tells the model, and when it stops: every main request holds the
 whole dialogue so far with the output of every tool run, and every end of a turn
 has its reason.
 */
module TurnDialogue {
  import opened Options
  import opened Conversation
  import opened LlmStream
  import opened Spaces
  import opened TurnLoop
  import opened TurnInvariants

  // ------------------------------------------------------------------
  // The dialogue
  // ------------------------------------------------------------------

  /** The outputs of a batch, in the order of its calls. */
  function Outputs(env: Env, batch: nat, calls: seq<Call>): seq<Message> {
    seq(|calls|, i requires 0 <= i < |calls| =>
      ToolResult(calls[i].id, calls[i].name, env.toolResult(batch, i).0, env.toolResult(batch, i).1))
  }

  function Said(r: LlmStreamResult): seq<Message> {
    if r.finalMessage.Some? then [r.finalMessage.value] else []
  }

  /** The user's message, then each reply with the outputs of the batch it asked for. */
  function Told(env: Env, rs: seq<LlmStreamResult>): seq<Message>
    decreases |rs|
  {
    if rs == [] then [User(Plain(env.userInput))]
    else
      var k := |rs| - 1;
      Told(env, rs[..k]) + Said(rs[k]) + Outputs(env, k, rs[k].pendingToolCalls)
  }

  /** A reply to a main request made after `k` batches, all of it unless the signal cut it short. */
  ghost predicate IsReply(env: Env, requests: seq<Request>, k: nat, r: LlmStreamResult) {
    exists j :: 0 <= j < |requests| && Answering(env, requests[j], j, k, r)
  }

  ghost predicate Answering(env: Env, q: Request, j: nat, k: nat, r: LlmStreamResult) {
    && q.MainRequest? && q.after == k && env.replies(j).Streams?
    && if r.interrupted then env.abortAt.Some?
       else r == FeedAll(Streamed(EMPTY_RESULT, []), env.replies(j).events).result
  }

  /** The main requests, each with everything said and run before it. */
  ghost predicate RequestsTell(env: Env, requests: seq<Request>, rs: seq<LlmStreamResult>) {
    forall i :: 0 <= i < |requests| && requests[i].MainRequest? ==>
      requests[i].after <= |rs| && requests[i].history == Told(env, rs[..requests[i].after])
  }

  /** Each batch was asked for by a whole reply to a request made when the ones before it had run. */
  ghost predicate AllAsked(env: Env, requests: seq<Request>, rs: seq<LlmStreamResult>) {
    forall k :: 0 <= k < |rs| ==>
      !rs[k].interrupted && rs[k].finalReason == ToolUse && rs[k].pendingToolCalls != []
      && IsReply(env, requests, k, rs[k])
  }

  ghost predicate Tells(env: Env, requests: seq<Request>, batches: nat, rs: seq<LlmStreamResult>) {
    |rs| == batches && RequestsTell(env, requests, rs) && AllAsked(env, requests, rs)
  }

  // ------------------------------------------------------------------
  // More requests, more replies
  // ------------------------------------------------------------------

  lemma {:induction false} StillReply(env: Env, q: seq<Request>, q': seq<Request>, k: nat, r: LlmStreamResult)
    requires IsReply(env, q, k, r) && q <= q'
    ensures IsReply(env, q', k, r)
  {
    var j :| 0 <= j < |q| && Answering(env, q[j], j, k, r);
    assert q'[j] == q[j];
  }

  /** Requests made with the dialogue so far keep the law. */
  lemma {:induction false} AskingTells(env: Env, q: seq<Request>, q': seq<Request>, rs: seq<LlmStreamResult>)
    requires Tells(env, q, |rs|, rs) && q <= q'
    requires forall i :: |q| <= i < |q'| && q'[i].MainRequest? ==> q'[i] == MainRequest(Told(env, rs), |rs|)
    ensures Tells(env, q', |rs|, rs)
  {
    hide Told, IsReply;
    assert rs[..|rs|] == rs;
    forall i | 0 <= i < |q'| && q'[i].MainRequest?
      ensures q'[i].after <= |rs| && q'[i].history == Told(env, rs[..q'[i].after])
    {
      assert i < |q| ==> q'[i] == q[i];
    }
    forall k | 0 <= k < |rs|
      ensures IsReply(env, q', k, rs[k])
    {
      StillReply(env, q, q', k, rs[k]);
    }
  }

  lemma {:induction false} ToldOneMore(env: Env, rs: seq<LlmStreamResult>, r: LlmStreamResult)
    ensures Told(env, rs + [r]) == Told(env, rs) + Said(r) + Outputs(env, |rs|, r.pendingToolCalls)
  {
    hide Outputs, Said;
    assert (rs + [r])[..|rs|] == rs;
  }

  lemma {:induction false} StillTells(env: Env, q: seq<Request>, rs: seq<LlmStreamResult>, r: LlmStreamResult)
    requires RequestsTell(env, q, rs)
    ensures RequestsTell(env, q, rs + [r])
  {
    hide Told;
    forall i | 0 <= i < |q| && q[i].MainRequest?
      ensures q[i].after <= |rs + [r]| && q[i].history == Told(env, (rs + [r])[..q[i].after])
    {
      assert (rs + [r])[..q[i].after] == rs[..q[i].after];
    }
  }

  /** One more batch. */
  lemma {:induction false} RunningTells(env: Env, q: seq<Request>, rs: seq<LlmStreamResult>, r: LlmStreamResult)
    requires Tells(env, q, |rs|, rs)
    requires !r.interrupted && r.finalReason == ToolUse && r.pendingToolCalls != [] && IsReply(env, q, |rs|, r)
    ensures Tells(env, q, |rs| + 1, rs + [r])
  {
    hide Told, IsReply, RequestsTell;
    StillTells(env, q, rs, r);
  }

  // ------------------------------------------------------------------
  // Replies
  // ------------------------------------------------------------------

  lemma {:induction false} WholeUnlessInterrupted(es: seq<StreamEvent>, clock: nat, abortAt: Option<nat>)
    ensures var r := StreamOf(es, clock, abortAt).result;
            if r.interrupted then abortAt.Some? else r == FeedAll(Streamed(EMPTY_RESULT, []), es).result
  {
    var k := Taken(|es|, clock, abortAt);
    FeedNeverInterrupts(es[..k]);
    assert es[..|es|] == es;
    hide FeedAll;
  }

  lemma {:induction false} AttemptReplies(env: Env, t: Turn, held: bool)
    ensures var a := AttemptStream(env, t, held);
            a.result.Some? ==> IsReply(env, a.turn.requests, t.batches, a.result.value)
  {
    hide StreamOf, FeedAll, Concat;
    var a := AttemptStream(env, t, held);
    var j := |t.requests|;
    match env.replies(j)
    case Streams(es) =>
      WholeUnlessInterrupted(es, t.clock, env.abortAt);
      assert Answering(env, a.turn.requests[j], j, t.batches, a.result.value);
    case Throws(_, _) =>
  }

  lemma {:induction false} RecoverReplies(env: Env, cfg: Config, t: Turn, r: LlmStreamResult)
    requires t.committed.None? && IsReply(env, t.requests, t.batches, r)
    ensures var rec := Recover(env, cfg, t, r);
            rec.result.Some? ==> IsReply(env, rec.turn.requests, t.batches, rec.result.value)
  {
    hide AttemptStream, IsReply, WorthRetrying;
    AttemptFacts(env, t, false);
    AttemptReplies(env, t, false);
    var a := RetryOnce(env, t, r);
    if a.result.Some? && WorthRetrying(a.result.value) && CanFallback(cfg, a.turn) {
      AttemptFacts(env, a.turn, true);
      AttemptReplies(env, a.turn, true);
      StillReply(env, a.turn.requests, TryFallback(env, a.turn, a.result.value).turn.requests, t.batches,
                 a.result.value);
    }
  }

  lemma {:induction false} AnsweredReplies(env: Env, cfg: Config, t: Turn, step: nat)
    requires t.committed.Some? ==> IsReply(env, t.requests, t.batches, t.committed.value)
    ensures var rec := Answered(env, cfg, t, step);
            rec.result.Some? ==> IsReply(env, rec.turn.requests, t.batches, rec.result.value)
  {
    hide AttemptStream, IsReply, Recover, WorthRetrying;
    if t.committed.None? {
      AttemptFacts(env, t, false);
      AttemptReplies(env, t, false);
    }
    var a := if t.committed.Some? then Attempted(t.(committed := None), t.committed, "")
             else AttemptStream(env, t, false);
    if a.result.Some? {
      RecoverReplies(env, cfg, a.turn, a.result.value);
    }
  }

  // ------------------------------------------------------------------
  // Between two steps, and at the end
  // ------------------------------------------------------------------

  /** Nothing forbids the batch of step `k`. */
  predicate Permitted(env: Env, cfg: Config, k: nat) {
    && k < LoopCap(cfg)
    && !(cfg.headless && env.overBudget(k))
    && (PauseEnabled(cfg) ==>
          && k + 1 < HardMaxSteps(cfg)
          && ((k + 1) % PauseAfterSteps(cfg) == 0 ==> env.pauseAnswer(k) == Continue))
  }

  ghost predicate AllPermitted(env: Env, cfg: Config, batches: nat) {
    forall k :: 0 <= k < batches ==> Permitted(env, cfg, k)
  }

  ghost predicate AllMain(requests: seq<Request>) {
    forall i :: 0 <= i < |requests| ==> requests[i].MainRequest?
  }

  /** Running: the turn has neither ended nor been wrapped up. */
  ghost predicate Running(env: Env, cfg: Config, t: Turn, rs: seq<LlmStreamResult>) {
    && !t.threw && !t.interrupted && t.wrapUp.None? && t.wrapUpText.None? && |rs| == t.batches
    && Tells(env, t.requests, t.batches, rs) && AllMain(t.requests) && AllPermitted(env, cfg, t.batches)
  }

  ghost predicate Head(env: Env, cfg: Config, t: Turn, rs: seq<LlmStreamResult>) {
    && Running(env, cfg, t, rs)
    && t.history == Told(env, rs)
    && (t.committed.Some? ==> IsReply(env, t.requests, t.batches, t.committed.value))
  }

  /** What follows the last batch run: nothing, a reply, or a reply whose calls were turned down. */
  datatype Rest = Nothing | Answer(reply: LlmStreamResult) | Declined(reply: LlmStreamResult)

  function RestOf(x: Rest): seq<Message> {
    match x
    case Nothing => []
    case Answer(r) => Said(r)
    case Declined(r) => Said(r) + NotExecuted(r.pendingToolCalls, NOT_EXECUTED_TEXT)
  }

  predicate WantsTools(r: LlmStreamResult) {
    r.pendingToolCalls != [] && r.finalReason == ToolUse
  }

  ghost predicate RestOk(env: Env, requests: seq<Request>, k: nat, x: Rest) {
    && (!x.Nothing? ==> exists r :: IsReply(env, requests, k, r) && x.reply == WithoutTools(r))
    && (x.Declined? ==> WantsTools(x.reply))
  }

  function Summary(t: Turn): seq<Message> {
    if t.wrapUpText.Some? then [Assistant(Plain(t.wrapUpText.value), None)] else []
  }

  /** The stop the turn was wrapped up for is one that `b` batches run and no more call for. */
  predicate Warranted(env: Env, cfg: Config, why: Why, b: nat, x: Rest) {
    match why
    case StepLimit => x.Nothing? && !PauseEnabled(cfg) && b == MaxSteps(cfg)
    case BudgetExceeded => x.Declined? && cfg.headless && env.overBudget(b)
    case HardCeiling => x.Declined? && PauseEnabled(cfg) && b + 1 == HardMaxSteps(cfg)
    case StoppedAtPause =>
      x.Declined? && PauseEnabled(cfg) && (b + 1) % PauseAfterSteps(cfg) == 0 && env.pauseAnswer(b) != Continue
  }

  /** A reply to the wrap-up request is the summary, all of it or as far as it got, unless it failed. */
  ghost predicate SummaryOk(env: Env, e: Turn) {
    e.requests != [] &&
    match env.replies(|e.requests| - 1)
    case Throws(_, _) => e.wrapUpText.None? && e.lastReason == if e.interrupted then AbortedReason else Errored
    case Streams(es) =>
      exists k :: 0 <= k <= |es| && SummaryOf(e, FeedAll(Streamed(EMPTY_RESULT, []), es[..k]).result, k < |es|)
  }

  predicate SummaryOf(e: Turn, r: LlmStreamResult, cut: bool) {
    && (cut ==> e.interrupted)
    && e.lastReason == (if e.interrupted then AbortedReason
                        else if r.finalReason == ToolUse then Stop else r.finalReason)
    && e.wrapUpText == if r.finalReason == Errored && !e.interrupted then None
                       else if !IsBlank(r.fullResponse) then Some(r.fullResponse)
                       else if r.finalMessage.Some? && r.finalMessage.value.Assistant?
                               && !IsBlank(TextOf(r.finalMessage.value.content))
                       then Some(TextOf(r.finalMessage.value.content)) else None
  }

  /** How a turn ends: with a reason for its wrap-up, or without one only in the ways listed. */
  ghost predicate Ending(env: Env, cfg: Config, e: Turn, rs: seq<LlmStreamResult>, x: Rest) {
    && RestOk(env, e.requests, |rs|, x)
    && e.history == Told(env, rs) + RestOf(x) + Summary(e)
    && match e.wrapUp
       case Some(why) =>
         && e.requests != []
         && e.requests[|e.requests| - 1]
            == WrapUpRequest(Flatten(Told(env, rs) + RestOf(x) + [Instruction(env, why)]))
         && Warranted(env, cfg, why, e.batches, x) && SummaryOk(env, e)
       case None =>
         && e.wrapUpText.None? && AllMain(e.requests)
         && (e.interrupted ==> env.abortAt.Some?)
         && (!e.interrupted && !e.threw && !e.credentialError ==>
               || (x.Answer? && !WantsTools(x.reply) && e.lastReason == x.reply.finalReason)
               || (x.Nothing? && e.lastReason == Errored))
  }

  ghost predicate Stopped(env: Env, cfg: Config, e: Turn, rs: seq<LlmStreamResult>, x: Rest) {
    Tells(env, e.requests, e.batches, rs) && AllPermitted(env, cfg, e.batches) && Ending(env, cfg, e, rs, x)
  }

  // ------------------------------------------------------------------
  // The wrap-up
  // ------------------------------------------------------------------

  lemma {:induction false} SummarisedIs(env: Env, t: Turn, r: LlmStreamResult)
    requires t.wrapUpText.None? && !t.interrupted
    ensures var e := Summarised(env, t, r);
            && SummaryOf(e, r, r.interrupted) && e.history == t.history + Summary(e)
            && e == t.(history := e.history, wrapUpText := e.wrapUpText, interrupted := e.interrupted,
                       lastReason := e.lastReason)
  {
    assert t.history + [] == t.history;
  }

  lemma {:induction false} InterruptedAside(e: Turn, r: LlmStreamResult, cut: bool)
    requires SummaryOf(e, r.(interrupted := cut), cut)
    ensures SummaryOf(e, r, cut)
  {
  }

  lemma {:induction false} CutShort(es: seq<StreamEvent>, clock: nat, abortAt: Option<nat>) returns (k: nat)
    ensures k <= |es|
    ensures var r := StreamOf(es, clock, abortAt).result;
            r == FeedAll(Streamed(EMPTY_RESULT, []), es[..k]).result.(interrupted := k < |es|)
  {
    k := Taken(|es|, clock, abortAt);
    FeedNeverInterrupts(es[..k]);
  }

  lemma {:induction false} AfterWrapUpIs(env: Env, t: Turn, reply: Option<LlmStreamResult>)
    requires t.wrapUpText.None? && !t.interrupted
    ensures var e := AfterWrapUp(env, t, reply);
            && e.history == t.history + Summary(e)
            && e == t.(history := e.history, wrapUpText := e.wrapUpText, interrupted := e.interrupted,
                       lastReason := e.lastReason)
            && if reply.Some? then SummaryOf(e, reply.value, reply.value.interrupted)
               else e.wrapUpText.None? && e.lastReason == if e.interrupted then AbortedReason else Errored
  {
    hide Summarised, SummaryOf;
    if reply.Some? {
      SummarisedIs(env, t, reply.value);
    } else {
      assert t.history + [] == t.history;
    }
  }

  lemma {:induction false} KeptSummaryIsOk(env: Env, e: Turn, es: seq<StreamEvent>, clock: nat)
    requires e.requests != [] && env.replies(|e.requests| - 1) == Streams(es)
    requires var r := StreamOf(es, clock, env.abortAt).result; SummaryOf(e, r, r.interrupted)
    ensures SummaryOk(env, e)
  {
    hide FeedAll, StreamOf, SummaryOf;
    var k := CutShort(es, clock, env.abortAt);
    InterruptedAside(e, FeedAll(Streamed(EMPTY_RESULT, []), es[..k]).result, k < |es|);
  }

  lemma {:induction false} WrapUpTells(env: Env, t: Turn, why: Why)
    requires t.wrapUpText.None? && !t.interrupted
    ensures var e := WrapUpStep(env, t, why);
            && e.requests == t.requests + [WrapUpRequest(Flatten(t.history + [Instruction(env, why)]))]
            && e.wrapUp == Some(why) && e.batches == t.batches && e.history == t.history + Summary(e)
            && SummaryOk(env, e)
  {
    hide StreamOf, Flatten, AfterWrapUp, SummaryOf, Summary;
    var a := AskSummary(env, t, why);
    AfterWrapUpIs(env, a.turn, a.result);
    if env.replies(|t.requests|).Streams? {
      hide SummaryOk;
      KeptSummaryIsOk(env, AfterWrapUp(env, a.turn, a.result), env.replies(|t.requests|).events, t.clock);
    }
  }

  // ------------------------------------------------------------------
  // One step
  // ------------------------------------------------------------------

  /** A reply with calls has been taken over. */
  ghost predicate Opened(env: Env, cfg: Config, t: Turn, rs: seq<LlmStreamResult>, r: LlmStreamResult) {
    && Running(env, cfg, t, rs)
    && t.committed.None? && t.history == Told(env, rs) + Said(r)
    && WantsTools(r) && !r.interrupted && r == WithoutTools(r) && IsReply(env, t.requests, |rs|, r)
  }

  /** A wrap-up made for its reason ends the turn. */
  lemma {:induction false} WrappingStops(env: Env, cfg: Config, t: Turn, rs: seq<LlmStreamResult>, x: Rest, why: Why)
    requires Running(env, cfg, t, rs) && t.history == Told(env, rs) + RestOf(x)
    requires RestOk(env, t.requests, |rs|, x) && Warranted(env, cfg, why, t.batches, x)
    ensures Stopped(env, cfg, WrapUpStep(env, t, why), rs, x)
  {
    hide Told, RestOf, Warranted, SummaryOk, Summary, IsReply, WrapUpStep, Flatten, AllPermitted, Tells;
    WrapUpTells(env, t, why);
    var e := WrapUpStep(env, t, why);
    assert t.requests <= e.requests;
    WrapUpKeepsTelling(env, t.requests, Flatten(t.history + [Instruction(env, why)]), rs);
    if !x.Nothing? {
      var r :| IsReply(env, t.requests, |rs|, r) && x.reply == WithoutTools(r);
      StillReply(env, t.requests, e.requests, |rs|, r);
    }
  }

  lemma {:induction false} WrapUpKeepsTelling(env: Env, q: seq<Request>, h: seq<Message>, rs: seq<LlmStreamResult>)
    requires Tells(env, q, |rs|, rs)
    ensures Tells(env, q + [WrapUpRequest(h)], |rs|, rs)
  {
    hide Told, IsReply;
    AskingTells(env, q, q + [WrapUpRequest(h)], rs);
  }

  lemma {:induction false} StoppingTells(env: Env, cfg: Config, t: Turn, rs: seq<LlmStreamResult>,
                                         r: LlmStreamResult, why: Why)
    requires Opened(env, cfg, t, rs, r) && Warranted(env, cfg, why, t.batches, Declined(r))
    ensures Stopped(env, cfg, StopBeforeBatch(env, t, r.pendingToolCalls, why), rs, Declined(r))
  {
    hide Told, Said, Warranted, IsReply, WrapUpStep, NotExecuted, AllPermitted, Tells, AllMain;
    var t1 := t.(history := t.history + NotExecuted(r.pendingToolCalls, NOT_EXECUTED_TEXT));
    assert t1.history == Told(env, rs) + RestOf(Declined(r));
    WrappingStops(env, cfg, t1, rs, Declined(r), why);
  }

  lemma {:induction false} LimitsTell(env: Env, cfg: Config, t: Turn, rs: seq<LlmStreamResult>, r: LlmStreamResult)
    requires Opened(env, cfg, t, rs, r) && t.batches < LoopCap(cfg)
    ensures var lim := CheckLimits(env, cfg, t, t.batches, r.pendingToolCalls);
            if lim.goesOn then Opened(env, cfg, lim.turn, rs, r) && Permitted(env, cfg, t.batches)
                               && lim.turn.batches == t.batches
            else Stopped(env, cfg, lim.turn, rs, Declined(r))
  {
    hide Told, Said, IsReply, StopBeforeBatch, NotExecuted, AllPermitted, Tells, AllMain, Stopped;
    var lim := CheckLimits(env, cfg, t, t.batches, r.pendingToolCalls);
    if lim.goesOn {
    } else if cfg.headless && env.overBudget(t.batches) {
      StoppingTells(env, cfg, t, rs, r, BudgetExceeded);
    } else if t.batches + 1 >= HardMaxSteps(cfg) {
      StoppingTells(env, cfg, t, rs, r, HardCeiling);
    } else if AbortedNow(env, t) {
      InterruptionTells(env, cfg, t, lim.turn, rs, Declined(r));
    } else {
      StoppingTells(env, cfg, t.(clock := t.clock + 1), rs, r, StoppedAtPause);
    }
  }

  /** The signal ends the turn where it is. */
  lemma {:induction false} InterruptionTells(env: Env, cfg: Config, t: Turn, e: Turn, rs: seq<LlmStreamResult>, x: Rest)
    requires Running(env, cfg, t, rs) && env.abortAt.Some? && RestOk(env, t.requests, |rs|, x)
    requires e == t.(clock := e.clock, history := e.history, interrupted := true, lastReason := e.lastReason,
                     response := e.response)
    requires e.history == Told(env, rs) + RestOf(x)
    ensures Stopped(env, cfg, e, rs, x)
  {
    hide Told, RestOf, IsReply, AllPermitted, Tells, AllMain;
    assert e.history + [] == e.history;
  }

  lemma {:induction false} ResultsAreOutputs(env: Env, batch: nat, calls: seq<Call>)
    ensures BatchResults(env, batch, calls) == Outputs(env, batch, calls)
  {
  }

  lemma {:induction false} OpenedRuns(env: Env, cfg: Config, t: Turn, t2: Turn, rs: seq<LlmStreamResult>,
                                      r: LlmStreamResult)
    requires Opened(env, cfg, t, rs, r) && Permitted(env, cfg, t.batches)
    requires t2 == t.(clock := t2.clock, batches := t.batches + 1,
                      history := t.history + BatchResults(env, t.batches, r.pendingToolCalls))
    ensures Head(env, cfg, t2, rs + [r])
  {
    hide Told, IsReply, BatchResults, Outputs, Tells, Said, WithoutTools;
    ResultsAreOutputs(env, t.batches, r.pendingToolCalls);
    ToldOneMore(env, rs, r);
    RunningTells(env, t.requests, rs, r);
  }

  lemma {:induction false} BatchTells(env: Env, cfg: Config, t: Turn, rs: seq<LlmStreamResult>, r: LlmStreamResult)
      returns (rs': seq<LlmStreamResult>, x: Rest)
    requires Opened(env, cfg, t, rs, r) && Permitted(env, cfg, t.batches)
    ensures var run := RunBatch(env, cfg, t, t.batches, r.pendingToolCalls);
            if run.goesOn then Head(env, cfg, run.turn, rs') && run.turn.batches == t.batches + 1 < LoopCap(cfg)
            else Stopped(env, cfg, run.turn, rs', x)
  {
    hide Told, Said, IsReply, WrapUpStep, BatchResults, AllPermitted, Tells, AllMain, Stopped, WithoutTools;
    var run := RunBatch(env, cfg, t, t.batches, r.pendingToolCalls);
    if AbortedNow(env, t) {
      rs', x := rs, Answer(r);
      InterruptionTells(env, cfg, t, run.turn, rs, x);
    } else {
      rs', x := rs + [r], Nothing;
      var t2 := t.(history := t.history + BatchResults(env, t.batches, r.pendingToolCalls), batches := t.batches + 1,
                   clock := t.clock + 2);
      OpenedRuns(env, cfg, t, t2, rs, r);
      assert t2.history == Told(env, rs') + RestOf(x);
      if AbortedNow(env, t.(clock := t.clock + 1)) {
        InterruptionTells(env, cfg, t2, run.turn, rs', x);
      } else if !run.goesOn {
        WrappingStops(env, cfg, t2, rs', x, StepLimit);
      }
    }
  }

  lemma {:induction false} WithoutToolsKeeps(r: LlmStreamResult)
    ensures WithoutTools(r).interrupted == r.interrupted
  {
  }

  lemma {:induction false} InterruptedReply(env: Env, q: seq<Request>, k: nat, r: LlmStreamResult)
    requires IsReply(env, q, k, r) && r.interrupted
    ensures env.abortAt.Some?
  {
    var j :| 0 <= j < |q| && Answering(env, q[j], j, k, r);
  }

  /** A reply that wants no tools, or one that came with the signal, ends the turn. */
  lemma {:induction false} AcceptingStops(env: Env, cfg: Config, t: Turn, rs: seq<LlmStreamResult>,
                                          r0: LlmStreamResult)
      returns (x: Rest)
    requires Running(env, cfg, t, rs) && t.history == Told(env, rs)
    requires IsReply(env, t.requests, |rs|, r0) && !Accept(env, t, WithoutTools(r0)).goesOn
    ensures Stopped(env, cfg, Accept(env, t, WithoutTools(r0)).turn, rs, x)
  {
    hide Told, IsReply, AllPermitted, Tells, AllMain, WithoutTools;
    var r := WithoutTools(r0);
    var e := Accept(env, t, r).turn;
    assert t.history + [] == t.history;
    if e.interrupted {
      x := Nothing;
      WithoutToolsKeeps(r0);
      if r.interrupted {
        InterruptedReply(env, t.requests, |rs|, r0);
      }
      InterruptionTells(env, cfg, t, e, rs, x);
    } else {
      x := Answer(r);
      assert e.history + [] == e.history;
    }
  }

  lemma {:induction false} ProceedTells(env: Env, cfg: Config, t: Turn, rs: seq<LlmStreamResult>, r0: LlmStreamResult)
      returns (rs': seq<LlmStreamResult>, x: Rest)
    requires Running(env, cfg, t, rs) && t.history == Told(env, rs) && t.committed.None?
    requires IsReply(env, t.requests, |rs|, r0) && t.batches < LoopCap(cfg)
    ensures var s := Proceed(env, cfg, t, t.batches, WithoutTools(r0));
            if s.goesOn then Head(env, cfg, s.turn, rs') && s.turn.batches == t.batches + 1 < LoopCap(cfg)
            else Stopped(env, cfg, s.turn, rs', x)
  {
    var r := WithoutTools(r0);
    assert WantsTools(r) ==> r == r0;
    hide Told, IsReply, CheckLimits, RunBatch, AllPermitted, Tells, AllMain, Stopped, WithoutTools, Head, Permitted;
    var acc := Accept(env, t, r);
    rs' := rs;
    if !acc.goesOn {
      x := AcceptingStops(env, cfg, t, rs, r0);
    } else {
      assert Opened(env, cfg, acc.turn, rs, r);
      LimitsTell(env, cfg, acc.turn, rs, r);
      var lim := CheckLimits(env, cfg, acc.turn, t.batches, r.pendingToolCalls);
      if lim.goesOn {
        rs', x := BatchTells(env, cfg, lim.turn, rs, r);
      } else {
        x := Declined(r);
      }
    }
  }

  /** Asking leaves the dialogue as it was. */
  lemma {:induction false} AskedStillRunning(env: Env, cfg: Config, t: Turn, t': Turn, rs: seq<LlmStreamResult>)
    requires Running(env, cfg, t, rs) && t.history == Told(env, rs) && OnlyAsked(t, t')
    ensures Running(env, cfg, t', rs) && t'.history == Told(env, rs)
  {
    hide Told, AllPermitted, Tells;
    AskingTells(env, t.requests, t'.requests, rs);
    forall i | 0 <= i < |t'.requests|
      ensures t'.requests[i].MainRequest?
    {
      assert i < |t.requests| ==> t'.requests[i] == t.requests[i];
    }
  }

  /** A request that failed for good, or whose fallback was turned down, ends the turn. */
  lemma {:induction false} FailureStops(env: Env, cfg: Config, t: Turn, e: Turn, rs: seq<LlmStreamResult>)
    requires Running(env, cfg, t, rs) && t.history == Told(env, rs)
    requires e == t.(threw := e.threw, lastReason := e.lastReason) && (e.threw || e.lastReason == Errored)
    ensures Stopped(env, cfg, e, rs, Nothing)
  {
    hide Told, AllPermitted, Tells, AllMain;
    assert t.history + [] == t.history;
  }

  lemma {:induction false} AfterAnswerTells(env: Env, cfg: Config, t: Turn, rec: Recovered, rs: seq<LlmStreamResult>)
      returns (rs': seq<LlmStreamResult>, x: Rest)
    requires Running(env, cfg, t, rs) && t.history == Told(env, rs) && OnlyAsked(t, rec.turn)
    requires rec.result.Some? ==> IsReply(env, rec.turn.requests, |rs|, rec.result.value)
    requires t.batches < LoopCap(cfg)
    ensures var s := AfterAnswer(env, cfg, rec, t.batches);
            if s.goesOn then Head(env, cfg, s.turn, rs') && s.turn.batches == t.batches + 1 < LoopCap(cfg)
            else Stopped(env, cfg, s.turn, rs', x)
  {
    AskedStillRunning(env, cfg, t, rec.turn, rs);
    hide Told, IsReply, AllPermitted, Tells, AllMain, Stopped, WithoutTools, Head, Proceed;
    var s := AfterAnswer(env, cfg, rec, t.batches);
    rs', x := rs, Nothing;
    if rec.result.None? {
      FailureStops(env, cfg, rec.turn, s.turn, rs);
    } else {
      var r := WithoutTools(rec.result.value);
      if r.finalReason != Timeout && rec.rejected && IsRecoverable(r) {
        FailureStops(env, cfg, rec.turn, s.turn, rs);
      } else {
        rs', x := ProceedTells(env, cfg, rec.turn, rs, rec.result.value);
      }
    }
  }

  /** A check of the signal changes nothing. */
  lemma {:induction false} HeadTicks(env: Env, cfg: Config, t: Turn, t0: Turn, rs: seq<LlmStreamResult>)
    requires Head(env, cfg, t, rs) && AtHead(env, t) && t0 == t.(clock := t0.clock)
    ensures Head(env, cfg, t0, rs) && AtHead(env, t0)
  {
    hide Told, IsReply, AllPermitted, Tells, AllMain, RequestsOk;
    SameRequestsOk(env, t, t0);
  }

  lemma {:induction false} AnsweredAsks(env: Env, cfg: Config, t: Turn, rs: seq<LlmStreamResult>)
    requires Head(env, cfg, t, rs) && AtHead(env, t)
    ensures var rec := Answered(env, cfg, t, t.batches);
            && OnlyAsked(t, rec.turn)
            && (rec.result.Some? ==> IsReply(env, rec.turn.requests, |rs|, rec.result.value))
  {
    AnsweredFacts(env, cfg, t, t.batches);
    hide Told, IsReply, AllPermitted, Tells, AllMain, AtHead, Answered, OnlyAsked, MostAsked;
    AnsweredReplies(env, cfg, t, t.batches);
  }

  lemma {:induction false} StepTells(env: Env, cfg: Config, t: Turn, rs: seq<LlmStreamResult>)
      returns (rs': seq<LlmStreamResult>, x: Rest)
    requires Head(env, cfg, t, rs) && AtHead(env, t) && t.batches < LoopCap(cfg)
    ensures var s := StepOnce(env, cfg, t, t.batches);
            if s.goesOn then Head(env, cfg, s.turn, rs') && s.turn.batches == t.batches + 1 < LoopCap(cfg)
            else Stopped(env, cfg, s.turn, rs', x)
  {
    hide Told, IsReply, AllPermitted, Tells, AllMain, Stopped, Answered, AfterAnswer, AtHead, OnlyAsked, LoopCap;
    var t0 := t.(clock := t.clock + 1);
    if AbortedNow(env, t) {
      rs', x := rs, Nothing;
      assert t.history + [] == t.history;
      InterruptionTells(env, cfg, t, StepOnce(env, cfg, t, t.batches).turn, rs, x);
    } else {
      HeadTicks(env, cfg, t, t0, rs);
      AnsweredAsks(env, cfg, t0, rs);
      rs', x := AfterAnswerTells(env, cfg, t0, Answered(env, cfg, t0, t.batches), rs);
    }
  }

  // ------------------------------------------------------------------
  // Every turn
  // ------------------------------------------------------------------

  lemma {:induction false} LoopTells(env: Env, cfg: Config, t: Turn, rs: seq<LlmStreamResult>)
      returns (rs': seq<LlmStreamResult>, x: Rest)
    requires Head(env, cfg, t, rs) && AtHead(env, t) && t.batches < LoopCap(cfg)
    ensures Stopped(env, cfg, LoopFrom(env, cfg, t, t.batches), rs', x)
    decreases LoopCap(cfg) - t.batches
  {
    hide StepOnce, AtHead, Head, Stopped;
    rs', x := StepTells(env, cfg, t, rs);
    StepFacts(env, cfg, t, t.batches);
    var s := StepOnce(env, cfg, t, t.batches);
    if s.goesOn {
      rs', x := LoopTells(env, cfg, s.turn, rs');
    }
  }

  /** The reply asked for before the loop is one to the user's message alone. */
  lemma {:induction false} FirstAskTells(env: Env, cfg: Config)
    ensures var u := NewTurn(env, cfg).(clock := 1);
            var t := AttemptStream(env, u, true).turn;
            && Running(env, cfg, t, []) && t.history == Told(env, [])
            && (AttemptStream(env, u, true).result.Some? ==>
                  IsReply(env, t.requests, 0, AttemptStream(env, u, true).result.value))
  {
    var u := NewTurn(env, cfg).(clock := 1);
    assert u.history == Told(env, []);
    AttemptFacts(env, u, true);
    AttemptReplies(env, u, true);
    hide AttemptStream, IsReply, Told;
    AskedStillRunning(env, cfg, u, AttemptStream(env, u, true).turn, []);
  }

  lemma {:induction false} AskedFirstTells(env: Env, cfg: Config)
    ensures var t := AskFallbackFirst(env, NewTurn(env, cfg).(clock := 1));
            if t.threw || t.credentialError then Stopped(env, cfg, t, [], Nothing) else Head(env, cfg, t, [])
  {
    FirstAskTells(env, cfg);
    hide AttemptStream, IsReply, Told, Tells, AllMain, AllPermitted, FinishedCleanly;
    assert Told(env, []) + [] == Told(env, []);
    AttemptFacts(env, NewTurn(env, cfg).(clock := 1), true);
  }

  /** The turn as it enters the loop, or as it ends when it does not. */
  lemma {:induction false} EnteringTells(env: Env, cfg: Config)
    ensures var t := Entering(env, cfg);
            if t.threw || t.credentialError then Stopped(env, cfg, t, [], Nothing)
            else Head(env, cfg, t, []) && AtHead(env, t) && t.batches == 0
  {
    CredentialFacts(env, cfg);
    AskedFirstTells(env, cfg);
    assert NewTurn(env, cfg).history == Told(env, []);
    assert Told(env, []) + [] == Told(env, []);
    hide FeedAll, AtHead, RequestsOk, AskFallbackFirst, Told;
  }

  /**
   In every turn the main requests hold the whole dialogue so far, each batch was asked for by a
   whole reply and nothing forbade it, and the turn ends with the dialogue, what follows the last
   batch, and the summary of a wrap-up that was made for its reason. The wrap-up request is the
   flattened dialogue with that rest and the instruction.
   */
  lemma {:induction false} TurnTells(env: Env, cfg: Config) returns (rs: seq<LlmStreamResult>, x: Rest)
    ensures Stopped(env, cfg, TurnOf(env, cfg), rs, x)
  {
    hide Head, AtHead, Stopped;
    EnteringTells(env, cfg);
    var t := Entering(env, cfg);
    if t.threw || t.credentialError {
      rs, x := [], Nothing;
    } else {
      rs, x := LoopTells(env, cfg, t, []);
    }
  }

  /** So every output of every batch run before a main request is in that request. */
  lemma {:induction false} OutputsAreSent(env: Env, cfg: Config, i: nat)
    requires i < |TurnOf(env, cfg).requests| && TurnOf(env, cfg).requests[i].MainRequest?
    ensures var q := TurnOf(env, cfg).requests[i];
            exists rs: seq<LlmStreamResult> ::
              && |rs| == q.after <= TurnOf(env, cfg).batches && q.history == Told(env, rs)
              && forall k, c :: 0 <= k < |rs| && 0 <= c < |rs[k].pendingToolCalls| ==>
                   ToolResult(rs[k].pendingToolCalls[c].id, rs[k].pendingToolCalls[c].name,
                              env.toolResult(k, c).0, env.toolResult(k, c).1) in q.history
  {
    hide TurnOf, Told, Ending, AllPermitted, AllAsked;
    var rs, x := TurnTells(env, cfg);
    var q := TurnOf(env, cfg).requests[i];
    var before := rs[..q.after];
    forall k, c | 0 <= k < |before| && 0 <= c < |before[k].pendingToolCalls|
      ensures ToolResult(before[k].pendingToolCalls[c].id, before[k].pendingToolCalls[c].name,
                         env.toolResult(k, c).0, env.toolResult(k, c).1) in Told(env, before)
    {
      ToldHolds(env, before, k, c);
    }
  }

  lemma {:induction false} ToldHolds(env: Env, rs: seq<LlmStreamResult>, k: nat, c: nat)
    requires k < |rs| && c < |rs[k].pendingToolCalls|
    ensures ToolResult(rs[k].pendingToolCalls[c].id, rs[k].pendingToolCalls[c].name,
                       env.toolResult(k, c).0, env.toolResult(k, c).1) in Told(env, rs)
    decreases |rs|
  {
    var n := |rs| - 1;
    if k < n {
      ToldHolds(env, rs[..n], k, c);
    } else {
      assert Outputs(env, n, rs[n].pendingToolCalls)[c] in Outputs(env, n, rs[n].pendingToolCalls);
    }
  }

  // ------------------------------------------------------------------
  // When a request is repeated
  // ------------------------------------------------------------------

  /** The requests made for the answer of a step. */
  function Asked(env: Env, cfg: Config, t: Turn, step: nat): int {
    |Answered(env, cfg, t, step).turn.requests| - |t.requests|
  }

  /** A reply is never asked for again once the user has seen text of it, the signal has fired, or a step is done. */
  lemma {:induction false} SeenReplyIsFinal(env: Env, cfg: Config, t: Turn, step: nat, r: LlmStreamResult)
    requires t.committed.None? && AttemptStream(env, t, false).result == Some(r)
    requires step > 0 || r.emittedToUi || r.interrupted
    ensures Answered(env, cfg, t, step).result == Some(r) && Asked(env, cfg, t, step) == 1
  {
    AttemptFacts(env, t, false);
    hide AttemptStream;
  }

  lemma {:induction false} WorthMeans(r: LlmStreamResult)
    requires !r.emittedToUi && !r.interrupted && r.finalReason != Timeout
    ensures WorthRetrying(r) <==>
              || r.status == Some(429) || r.status == Some(529) || r.finalReason == RateLimit || r.transient
              || (r.finalReason == Stop && IsBlank(r.fullResponse) && r.pendingToolCalls == [])
              || (r.errorKind == Some(PrematureEnd) && r.retryable && !r.emittedToolCall)
  {
    hide IsBlank;
  }

  /** The first reply, unseen, is asked for again exactly if it failed for the moment, was empty or was cut off. */
  lemma {:induction false} RetriedIff(env: Env, cfg: Config, t: Turn, r: LlmStreamResult)
    requires t.committed.None? && AttemptStream(env, t, false).result == Some(r)
    requires !r.emittedToUi && !r.interrupted && r.finalReason != Timeout && r.errorKind != Some(ConnectTimeout)
    ensures Asked(env, cfg, t, 0) >= 2 <==>
              || r.status == Some(429) || r.status == Some(529) || r.finalReason == RateLimit || r.transient
              || (r.finalReason == Stop && IsBlank(r.fullResponse) && r.pendingToolCalls == [])
              || (r.errorKind == Some(PrematureEnd) && r.retryable && !r.emittedToolCall)
  {
    hide AttemptStream, FinishedCleanly, WorthRetrying, IsBlank, ShouldFallback, IsPrematureEndRetry;
    AttemptFacts(env, t, false);
    var a := AttemptStream(env, t, false);
    AttemptFacts(env, a.turn, false);
    AttemptFacts(env, AttemptStream(env, a.turn, false).turn, true);
    WorthMeans(r);
  }

  /** One that timed out goes straight to the fallback, if there is one to go to. */
  lemma {:induction false} TimeoutGoesToFallback(env: Env, cfg: Config, t: Turn, r: LlmStreamResult)
    requires t.committed.None? && AttemptStream(env, t, false).result == Some(r)
    requires !r.emittedToUi && !r.interrupted && r.finalReason == Timeout
    ensures Asked(env, cfg, t, 0)
            == if cfg.fallbackConfigured && !t.overridden && env.prepare == Prepared then 2 else 1
  {
    AttemptFacts(env, t, false);
    AttemptFacts(env, AttemptStream(env, t, false).turn, true);
    hide AttemptStream, FinishedCleanly, IsEmptyResponse, IsPrematureEndRetry;
  }

  /** A reply with something to go on: text, or calls, and an end that says so. */
  predicate Usable(r: LlmStreamResult) {
    && !r.interrupted && r.doneReceived && r.errorKind.None?
    && match r.finalReason
       case Stop => !IsBlank(r.fullResponse) || r.pendingToolCalls != []
       case Length => !IsBlank(r.fullResponse)
       case ToolUse => true
       case _ => false
  }

  /** The fallback's reply is used if and only if it is usable, and only then is its text shown. */
  lemma {:induction false} FallbackIsUsedIff(env: Env, t: Turn, r: LlmStreamResult)
    requires t.committed.None? && env.prepare == Prepared
    ensures var a := AttemptStream(env, t, true);
            var rec := TryFallback(env, t, r);
            && (a.result.Some? && Usable(a.result.value) ==>
                  rec.result == a.result && rec.turn.shown == t.shown + a.result.value.fullResponse
                  && rec.turn.overridden && !rec.rejected)
            && (a.result.Some? && !Usable(a.result.value) ==>
                  rec.result == Some(r) && rec.turn.shown == t.shown && rec.turn.overridden == t.overridden
                  && rec.rejected)
            && (a.result.None? ==> rec.result.None?)
  {
    AttemptFacts(env, t, true);
    var a := AttemptStream(env, t, true);
    assert a.result.Some? ==> (Usable(a.result.value) <==> FinishedCleanly(a.result.value));
    hide AttemptStream, FinishedCleanly, Usable;
  }

  /**
   After a failed sign-in, with a fallback and no signal: the turn stays signed out if the fallback's own
   sign-in fails or its reply is no use, throws if anything else fails, and enters the loop otherwise.
   */
  lemma {:induction false} SignInFallback(env: Env, cfg: Config)
    requires TriesFallbackFirst(cfg) && env.abortAt == None
    ensures var t := Entering(env, cfg);
            match env.fallbackAuth
            case CredentialFailure => t.credentialError && !t.threw && t.requests == []
            case OtherFailure => t.threw && t.requests == []
            case AbortFailure => !t.credentialError && !t.threw && t.requests == []
            case SignedIn =>
              match env.prepare
              case PrepareFails => t.threw && t.requests == []
              case PrepareAborts => !t.credentialError && !t.threw && t.requests == []
              case Prepared =>
                && |t.requests| == 1
                && match env.replies(0)
                   case Throws(_, isAbort) => t.committed.None? && t.threw == !isAbort && t.credentialError == !isAbort
                   case Streams(es) =>
                     var r := FeedAll(Streamed(EMPTY_RESULT, []), es).result;
                     !t.threw && t.credentialError == !Usable(r) && t.committed == if Usable(r) then Some(r) else None
  {
    var u := NewTurn(env, cfg).(clock := 1);
    AttemptFacts(env, u, true);
    if env.replies(0).Streams? {
      var es := env.replies(0).events;
      WholeUnlessInterrupted(es, 1, env.abortAt);
      var r := FeedAll(Streamed(EMPTY_RESULT, []), es).result;
      assert Usable(r) <==> FinishedCleanly(r);
    }
    hide FeedAll, StreamOf, FinishedCleanly, Usable;
  }

  /** A turn whose signal has fired before it starts asks for nothing. */
  lemma {:induction false} NothingIsAskedAfterAbort(env: Env, cfg: Config)
    requires env.abortAt == Some(0)
    ensures TurnOf(env, cfg).requests == [] && TurnOf(env, cfg).batches == 0
    ensures TurnOf(env, cfg).interrupted <==> !cfg.credentialError
  {
    var t := Entering(env, cfg);
    assert !t.threw && !t.credentialError ==> LoopFrom(env, cfg, t, 0) == StepOnce(env, cfg, t, 0).turn;
  }
}

/**
 One streamed model reply: folding its events into a result, and the tests the
 turn loop makes on that result.
 */
module LlmStream {
  import opened Options
  import opened Spaces
  import opened Conversation

  datatype Reason = Stop | Length | ToolUse | Errored | AbortedReason | Timeout | RateLimit

  datatype ErrorKind = PrematureEnd | ConnectTimeout

  datatype StreamEvent =
    | TextDelta(delta: string)
    | ThinkingDelta
    | ToolCallProgress
    | ToolCallEnd(call: Call)
    | DoneEvent(reason: Reason, message: Option<Message>)
    | ErrorEvent(errorReason: Reason, status: Option<int>, retryable: bool, kind: Option<ErrorKind>, transient: bool)

  /** `transient`: the error message speaks of a timeout, a rate limit or an overload. */
  datatype LlmStreamResult = LlmStreamResult(
    fullResponse: string,
    pendingToolCalls: seq<Call>,
    finalMessage: Option<Message>,
    finalReason: Reason,
    transient: bool,
    status: Option<int>,
    interrupted: bool,
    emittedToUi: bool,
    emittedToolCall: bool,
    retryable: bool,
    errorKind: Option<ErrorKind>,
    doneReceived: bool)

  const EMPTY_RESULT := LlmStreamResult("", [], None, Stop, false, None, false, false, false, false, None, false)

  /** The result so far and the text deltas handed to the sink. */
  datatype Streamed = Streamed(result: LlmStreamResult, sent: seq<string>)

  function Feed(s: Streamed, e: StreamEvent): Streamed {
    var r := s.result;
    match e
    case TextDelta(d) => Streamed(r.(emittedToUi := true, fullResponse := r.fullResponse + d), s.sent + [d])
    case ThinkingDelta => s
    case ToolCallProgress => s.(result := r.(emittedToolCall := true))
    case ToolCallEnd(c) => s.(result := r.(emittedToolCall := true, pendingToolCalls := r.pendingToolCalls + [c]))
    case DoneEvent(reason, m) => s.(result := r.(doneReceived := true, finalReason := reason, finalMessage := m))
    case ErrorEvent(reason, status, retryable, kind, transient) =>
      s.(result := r.(finalReason := reason,
                      status := if status.Some? then status else r.status,
                      retryable := retryable,
                      errorKind := if kind.Some? then kind else r.errorKind,
                      transient := transient))
  }

  function FeedAll(s: Streamed, es: seq<StreamEvent>): Streamed
    decreases |es|
  {
    if es == [] then s else Feed(FeedAll(s, es[..|es| - 1]), es[|es| - 1])
  }

  /** The abort signal, as a moment on the turn's own clock of checks. */
  predicate AbortedAt(abortAt: Option<nat>, clock: nat) {
    abortAt.Some? && clock >= abortAt.value
  }

  /** How many events are taken before the signal is seen. */
  function Taken(n: nat, clock: nat, abortAt: Option<nat>): nat {
    if abortAt == None then n
    else if abortAt.value <= clock then 0
    else if abortAt.value - clock < n then abortAt.value - clock else n
  }

  function StreamOf(es: seq<StreamEvent>, clock: nat, abortAt: Option<nat>): Streamed {
    var k := Taken(|es|, clock, abortAt);
    var s := FeedAll(Streamed(EMPTY_RESULT, []), es[..k]);
    if k < |es| then s.(result := s.result.(interrupted := true)) else s
  }

  method RunLlmStream(es: seq<StreamEvent>, clock: nat, abortAt: Option<nat>) returns (s: Streamed)
    ensures s == StreamOf(es, clock, abortAt)
  {
    s := Streamed(EMPTY_RESULT, []);
    for i := 0 to |es|
      invariant i <= Taken(|es|, clock, abortAt)
      invariant s == FeedAll(Streamed(EMPTY_RESULT, []), es[..i])
    {
      if AbortedAt(abortAt, clock + i) {
        return s.(result := s.result.(interrupted := true));
      }
      assert es[..i + 1][..i] == es[..i];
      s := Feed(s, es[i]);
    }
    assert es[..|es|] == es;
  }

  function Concat(deltas: seq<string>): string
    decreases |deltas|
  {
    if deltas == [] then "" else Concat(deltas[..|deltas| - 1]) + deltas[|deltas| - 1]
  }

  /** A result's text is what was sent, and it says whether anything was. */
  ghost predicate TextOk(s: Streamed) {
    s.result.fullResponse == Concat(s.sent) && (s.result.emittedToUi <==> s.sent != [])
  }

  lemma {:induction false} FeedAllTextOk(es: seq<StreamEvent>)
    ensures TextOk(FeedAll(Streamed(EMPTY_RESULT, []), es))
    decreases |es|
  {
    if es != [] {
      FeedAllTextOk(es[..|es| - 1]);
      var before := FeedAll(Streamed(EMPTY_RESULT, []), es[..|es| - 1]);
      if es[|es| - 1].TextDelta? {
        assert (before.sent + [es[|es| - 1].delta])[..|before.sent|] == before.sent;
      }
    }
  }

  /** Every reply, interrupted or not, sends exactly the text it reports. */
  lemma {:induction false} SentIsReported(es: seq<StreamEvent>, clock: nat, abortAt: Option<nat>)
    ensures TextOk(StreamOf(es, clock, abortAt))
    ensures !StreamOf(es, clock, abortAt).result.emittedToUi ==>
              StreamOf(es, clock, abortAt).sent == [] && StreamOf(es, clock, abortAt).result.fullResponse == ""
  {
    FeedAllTextOk(es[..Taken(|es|, clock, abortAt)]);
  }

  // ------------------------------------------------------------------
  // What the fold keeps
  // ------------------------------------------------------------------

  predicate Ends(e: StreamEvent) { e.DoneEvent? || e.ErrorEvent? }

  function ReasonOf(e: StreamEvent): Reason
    requires Ends(e)
  {
    if e.DoneEvent? then e.reason else e.errorReason
  }

  /** One event's effect on what describes a failure. */
  lemma {:induction false} FeedFailure(s: Streamed, e: StreamEvent)
    ensures var r, r' := s.result, Feed(s, e).result;
            && r'.retryable == (if e.ErrorEvent? then e.retryable else r.retryable)
            && r'.transient == (if e.ErrorEvent? then e.transient else r.transient)
            && r'.status == (if e.ErrorEvent? && e.status.Some? then e.status else r.status)
            && r'.errorKind == (if e.ErrorEvent? && e.kind.Some? then e.kind else r.errorKind)
  {
  }

  lemma {:induction false} FeedEnding(s: Streamed, e: StreamEvent)
    ensures var r, r' := s.result, Feed(s, e).result;
            && r'.finalReason == (if Ends(e) then ReasonOf(e) else r.finalReason)
            && r'.finalMessage == (if e.DoneEvent? then e.message else r.finalMessage)
            && r'.doneReceived == (e.DoneEvent? || r.doneReceived)
            && r'.emittedToolCall == (e.ToolCallProgress? || e.ToolCallEnd? || r.emittedToolCall)
            && r'.interrupted == r.interrupted
  {
  }

  /** The reason is that of the last event that gives one; without any the reply just stopped. */
  lemma {:induction false} ReasonIsTheLast(es: seq<StreamEvent>, i: int)
    requires -1 <= i < |es| && (i >= 0 ==> Ends(es[i]))
    requires forall j :: i < j < |es| ==> !Ends(es[j])
    ensures FeedAll(Streamed(EMPTY_RESULT, []), es).result.finalReason == if i >= 0 then ReasonOf(es[i]) else Stop
    decreases |es|
  {
    if es != [] {
      hide Feed, Ends, ReasonOf;
      FeedEnding(FeedAll(Streamed(EMPTY_RESULT, []), es[..|es| - 1]), es[|es| - 1]);
      if i < |es| - 1 {
        ReasonIsTheLast(es[..|es| - 1], i);
      }
    }
  }

  /** The message is that of the last event that ends the reply. */
  lemma {:induction false} MessageIsTheLast(es: seq<StreamEvent>, i: int)
    requires -1 <= i < |es| && (i >= 0 ==> es[i].DoneEvent?)
    requires forall j :: i < j < |es| ==> !es[j].DoneEvent?
    ensures var r := FeedAll(Streamed(EMPTY_RESULT, []), es).result;
            r.doneReceived == (i >= 0) && r.finalMessage == if i >= 0 then es[i].message else None
    decreases |es|
  {
    if es != [] {
      hide Feed, Ends, ReasonOf;
      FeedEnding(FeedAll(Streamed(EMPTY_RESULT, []), es[..|es| - 1]), es[|es| - 1]);
      if i < |es| - 1 {
        MessageIsTheLast(es[..|es| - 1], i);
      }
    }
  }

  /** Whether a failure may be retried is what the last error says. */
  lemma {:induction false} FailureIsTheLast(es: seq<StreamEvent>, i: int)
    requires -1 <= i < |es| && (i >= 0 ==> es[i].ErrorEvent?)
    requires forall j :: i < j < |es| ==> !es[j].ErrorEvent?
    ensures var r := FeedAll(Streamed(EMPTY_RESULT, []), es).result;
            r.retryable == (i >= 0 && es[i].retryable) && r.transient == (i >= 0 && es[i].transient)
    decreases |es|
  {
    if es != [] {
      hide Feed;
      FeedFailure(FeedAll(Streamed(EMPTY_RESULT, []), es[..|es| - 1]), es[|es| - 1]);
      if i < |es| - 1 {
        FailureIsTheLast(es[..|es| - 1], i);
      }
    }
  }

  /** A status is kept once it is known, until another is. */
  lemma {:induction false} StatusIsTheLast(es: seq<StreamEvent>, k: int)
    requires -1 <= k < |es| && (k >= 0 ==> es[k].ErrorEvent? && es[k].status.Some?)
    requires forall j :: k < j < |es| ==> !(es[j].ErrorEvent? && es[j].status.Some?)
    ensures FeedAll(Streamed(EMPTY_RESULT, []), es).result.status == if k >= 0 then es[k].status else None
    decreases |es|
  {
    if es != [] {
      hide Feed;
      FeedFailure(FeedAll(Streamed(EMPTY_RESULT, []), es[..|es| - 1]), es[|es| - 1]);
      if k < |es| - 1 {
        StatusIsTheLast(es[..|es| - 1], k);
      }
    }
  }

  /** So is a kind of error. */
  lemma {:induction false} KindIsTheLast(es: seq<StreamEvent>, k: int)
    requires -1 <= k < |es| && (k >= 0 ==> es[k].ErrorEvent? && es[k].kind.Some?)
    requires forall j :: k < j < |es| ==> !(es[j].ErrorEvent? && es[j].kind.Some?)
    ensures FeedAll(Streamed(EMPTY_RESULT, []), es).result.errorKind == if k >= 0 then es[k].kind else None
    decreases |es|
  {
    if es != [] {
      hide Feed;
      FeedFailure(FeedAll(Streamed(EMPTY_RESULT, []), es[..|es| - 1]), es[|es| - 1]);
      if k < |es| - 1 {
        KindIsTheLast(es[..|es| - 1], k);
      }
    }
  }

  predicate IsToolEvent(e: StreamEvent) { e.ToolCallProgress? || e.ToolCallEnd? }

  lemma {:induction false} ToolsAreNoticed(es: seq<StreamEvent>)
    ensures FeedAll(Streamed(EMPTY_RESULT, []), es).result.emittedToolCall
            <==> exists i :: 0 <= i < |es| && IsToolEvent(es[i])
    decreases |es|
  {
    if es != [] {
      hide Feed, Ends, ReasonOf;
      var before, e := es[..|es| - 1], es[|es| - 1];
      FeedEnding(FeedAll(Streamed(EMPTY_RESULT, []), before), e);
      ToolsAreNoticed(before);
      assert forall i :: 0 <= i < |before| ==> IsToolEvent(before[i]) == IsToolEvent(es[i]);
      assert IsToolEvent(e) == IsToolEvent(es[|es| - 1]);
    }
  }

  /** A reply is cut short exactly if the signal fires before its last event is taken. */
  lemma {:induction false} InterruptedIff(es: seq<StreamEvent>, clock: nat, abortAt: Option<nat>)
    ensures StreamOf(es, clock, abortAt).result.interrupted
            <==> abortAt.Some? && es != [] && abortAt.value < clock + |es|
    ensures StreamOf(es, clock, abortAt).sent <= FeedAll(Streamed(EMPTY_RESULT, []), es).sent
  {
    var k := Taken(|es|, clock, abortAt);
    FeedNeverInterrupts(es[..k]);
    SentGrows(es, k);
    assert es[..|es|] == es;
  }

  lemma {:induction false} FeedNeverInterrupts(es: seq<StreamEvent>)
    ensures !FeedAll(Streamed(EMPTY_RESULT, []), es).result.interrupted
    decreases |es|
  {
    if es != [] {
      hide Feed, Ends, ReasonOf;
      FeedEnding(FeedAll(Streamed(EMPTY_RESULT, []), es[..|es| - 1]), es[|es| - 1]);
      FeedNeverInterrupts(es[..|es| - 1]);
    }
  }

  lemma {:induction false} SentGrows(es: seq<StreamEvent>, k: nat)
    requires k <= |es|
    ensures FeedAll(Streamed(EMPTY_RESULT, []), es[..k]).sent <= FeedAll(Streamed(EMPTY_RESULT, []), es).sent
    decreases |es|
  {
    if k < |es| {
      SentGrows(es[..|es| - 1], k);
      assert es[..|es| - 1][..k] == es[..k];
    } else {
      assert es[..k] == es;
    }
  }

  // ------------------------------------------------------------------
  // What a driver promises
  // ------------------------------------------------------------------

  /** The calls that ended among the events. */
  function EndedCalls(es: seq<StreamEvent>): seq<Call>
    decreases |es|
  {
    if es == [] then []
    else EndedCalls(es[..|es| - 1]) + if es[|es| - 1].ToolCallEnd? then [es[|es| - 1].call] else []
  }

  /**
   A driver ends a reply that wants tools with one `done` event whose message
   carries the calls that ended, and an error event never claims that reason.
   */
  ghost predicate DriverOk(es: seq<StreamEvent>) {
    && (forall i :: 0 <= i < |es| && es[i].ErrorEvent? ==> es[i].errorReason != ToolUse)
    && (forall i :: 0 <= i < |es| && es[i].DoneEvent? && es[i].reason == ToolUse ==>
          && i == |es| - 1
          && es[i].message.Some? && es[i].message.value.Assistant?
          && CallsOf(es[i].message.value) == EndedCalls(es[..i]))
  }

  lemma {:induction false} FeedCalls(s: Streamed, e: StreamEvent)
    ensures Feed(s, e).result.pendingToolCalls
            == s.result.pendingToolCalls + if e.ToolCallEnd? then [e.call] else []
    ensures Feed(s, e).result.finalReason
            == if e.DoneEvent? then e.reason else if e.ErrorEvent? then e.errorReason else s.result.finalReason
  {
  }

  lemma {:induction false} FeedAllCalls(es: seq<StreamEvent>)
    ensures FeedAll(Streamed(EMPTY_RESULT, []), es).result.pendingToolCalls == EndedCalls(es)
    decreases |es|
  {
    if es != [] {
      hide Feed;
      FeedAllCalls(es[..|es| - 1]);
      FeedCalls(FeedAll(Streamed(EMPTY_RESULT, []), es[..|es| - 1]), es[|es| - 1]);
    }
  }

  lemma {:induction false} FeedAllReason(es: seq<StreamEvent>)
    ensures var r := FeedAll(Streamed(EMPTY_RESULT, []), es).result;
            r.finalReason == ToolUse ==>
              exists i :: 0 <= i < |es| && ((es[i].DoneEvent? && es[i].reason == ToolUse)
                                            || (es[i].ErrorEvent? && es[i].errorReason == ToolUse))
    decreases |es|
  {
    if es != [] {
      hide Feed;
      FeedAllReason(es[..|es| - 1]);
      FeedCalls(FeedAll(Streamed(EMPTY_RESULT, []), es[..|es| - 1]), es[|es| - 1]);
      var before := FeedAll(Streamed(EMPTY_RESULT, []), es[..|es| - 1]).result;
      var e := es[|es| - 1];
      if before.finalReason == ToolUse && !e.DoneEvent? && !e.ErrorEvent? {
        var i :| 0 <= i < |es| - 1 && ((es[..|es| - 1][i].DoneEvent? && es[..|es| - 1][i].reason == ToolUse)
                                       || (es[..|es| - 1][i].ErrorEvent? && es[..|es| - 1][i].errorReason == ToolUse));
        assert es[i] == es[..|es| - 1][i];
      }
    }
  }

  /** A result that asks for tools has the message that carries exactly its pending calls. */
  ghost predicate ToolsOk(r: LlmStreamResult) {
    r.finalReason == ToolUse ==>
      r.finalMessage.Some? && r.finalMessage.value.Assistant? && CallsOf(r.finalMessage.value) == r.pendingToolCalls
  }

  lemma {:induction false} DriverGivesToolsOk(es: seq<StreamEvent>, clock: nat, abortAt: Option<nat>)
    requires DriverOk(es)
    ensures ToolsOk(StreamOf(es, clock, abortAt).result)
  {
    var k := Taken(|es|, clock, abortAt);
    var taken := es[..k];
    var r := FeedAll(Streamed(EMPTY_RESULT, []), taken).result;
    if r.finalReason == ToolUse {
      FeedAllReason(taken);
      var i :| 0 <= i < |taken| && ((taken[i].DoneEvent? && taken[i].reason == ToolUse)
                                    || (taken[i].ErrorEvent? && taken[i].errorReason == ToolUse));
      assert taken[i] == es[i];
      assert i == |es| - 1 && k == |es| && taken == es;
      FeedAllCalls(es[..i]);
      assert r == Feed(FeedAll(Streamed(EMPTY_RESULT, []), es[..i]), es[i]).result;
    }
  }

  // ------------------------------------------------------------------
  // Tests on a result
  // ------------------------------------------------------------------

  predicate IsRecoverable(r: LlmStreamResult) {
    && !r.interrupted
    && (r.status == Some(429) || r.status == Some(529)
        || r.finalReason == Timeout || r.finalReason == RateLimit || r.transient)
  }

  predicate IsEmptyResponse(r: LlmStreamResult) {
    !r.interrupted && r.finalReason == Stop && IsBlank(r.fullResponse) && r.pendingToolCalls == []
  }

  predicate ShouldFallback(r: LlmStreamResult) {
    IsRecoverable(r) || IsEmptyResponse(r)
  }

  predicate IsPrematureEndRetry(r: LlmStreamResult) {
    && !r.interrupted && !r.emittedToUi && !r.emittedToolCall
    && r.retryable && r.errorKind == Some(PrematureEnd)
  }

  predicate FinishedCleanly(r: LlmStreamResult) {
    if r.interrupted || !r.doneReceived || r.errorKind.Some? then false
    else if r.finalReason == Length then !IsBlank(r.fullResponse)
    else if r.finalReason != Stop && r.finalReason != ToolUse then false
    else !IsEmptyResponse(r)
  }

  predicate IsConnectExhausted(r: LlmStreamResult) {
    r.errorKind == Some(ConnectTimeout)
  }

  /** Text kept of a timed-out message; its tool calls are dropped. */
  function TextAfterTimeout(m: Option<Message>): Option<Message> {
    match m
    case Some(Assistant(c, _)) => if IsBlank(TextOf(c)) then None else Some(Assistant(Plain(TextOf(c)), None))
    case _ => None
  }

  function WithoutTools(r: LlmStreamResult): LlmStreamResult {
    if r.finalReason == Timeout || IsConnectExhausted(r)
    then r.(pendingToolCalls := [], finalMessage := TextAfterTimeout(r.finalMessage)) else r
  }

  /** Of a reply that timed out or never connected the visible text stays and no call; any other is as it was. */
  lemma {:induction false} TimeoutKeepsText(r: LlmStreamResult)
    ensures var r' := WithoutTools(r);
            && (r.finalReason != Timeout && r.errorKind != Some(ConnectTimeout) ==> r' == r)
            && (r.finalReason == Timeout || r.errorKind == Some(ConnectTimeout) ==>
                  && r' == r.(pendingToolCalls := [], finalMessage := r'.finalMessage)
                  && (forall m :: r'.finalMessage == Some(m) ==> CallsOf(m) == [])
                  && (r'.finalMessage.Some? <==>
                        && r.finalMessage.Some? && r.finalMessage.value.Assistant?
                        && !IsBlank(TextOf(r.finalMessage.value.content)))
                  && (r'.finalMessage.Some? ==>
                        r'.finalMessage == Some(Assistant(Plain(TextOf(r.finalMessage.value.content)), None))))
  {
  }
}

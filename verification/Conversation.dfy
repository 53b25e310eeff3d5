/**
 The history of a turn as it is sent to the model: which tool calls it makes,
 which are answered, and its flattened form for a request without tools.
 */
module Conversation {
  import opened Options
  import opened Spaces

  datatype Call = Call(id: string, name: string, args: string)

  /** How a tool call appears among content parts; requests carry the first two kinds. */
  datatype UseKind = SnakeUse | CamelUse | ToolCallUse

  datatype Part = TextPart(text: string) | UsePart(kind: UseKind, call: Call) | OtherPart

  datatype Content = Plain(text: string) | Parts(parts: seq<Part>)

  datatype Message =
    | User(content: Content)
    | Assistant(content: Content, toolCalls: Option<seq<Call>>)
    | ToolResult(callId: string, toolName: string, text: string, isError: bool)

  function TextOfParts(ps: seq<Part>): string {
    if ps == [] then "" else (if ps[0].TextPart? then ps[0].text else "") + TextOfParts(ps[1..])
  }

  function TextOf(c: Content): string {
    match c case Plain(s) => s case Parts(ps) => TextOfParts(ps)
  }

  function UsesAmong(ps: seq<Part>, all: bool): seq<Call> {
    if ps == [] then []
    else (if ps[0].UsePart? && (all || ps[0].kind != ToolCallUse) then [ps[0].call] else []) + UsesAmong(ps[1..], all)
  }

  /** The tool calls a message carries in a request. */
  function CallsOf(m: Message): seq<Call> {
    match m
    case Assistant(c, Some(calls)) => calls
    case Assistant(Parts(ps), None) => UsesAmong(ps, false)
    case _ => []
  }

  /** The text parts, in order, make the text. */
  lemma {:induction false} TextPartsAreRead(ps: seq<Part>, p: Part)
    ensures TextOfParts(ps + [p]) == TextOfParts(ps) + if p.TextPart? then p.text else ""
    decreases |ps|
  {
    if ps == [] {
      assert ps + [p] == [p] && [p][1..] == [];
    } else {
      TextPartsAreRead(ps[1..], p);
      assert (ps + [p])[1..] == ps[1..] + [p];
    }
  }

  /** The parts that carry calls, in order, give the calls; one kind of them is carried in no request. */
  lemma {:induction false} UsePartsAreRead(ps: seq<Part>, p: Part, all: bool)
    ensures UsesAmong(ps + [p], all)
            == UsesAmong(ps, all)
               + if p.UsePart? && (all || p.kind == SnakeUse || p.kind == CamelUse) then [p.call] else []
    decreases |ps|
  {
    if ps == [] {
      assert ps + [p] == [p] && [p][1..] == [];
    } else {
      UsePartsAreRead(ps[1..], p, all);
      assert (ps + [p])[1..] == ps[1..] + [p];
    }
  }

  // ------------------------------------------------------------------
  // Well-formed histories
  // ------------------------------------------------------------------

  /**
   The calls still to be answered after the history, or None if it is malformed:
   a user message only at the front, and after an assistant message exactly its
   calls' results, once each and in order.
   */
  function Unanswered(h: seq<Message>): Option<seq<Call>>
    decreases |h|
  {
    if h == [] then Some([])
    else match Unanswered(h[..|h| - 1])
      case None => None
      case Some(open) =>
        match h[|h| - 1]
        case User(_) => if |h| == 1 then Some([]) else None
        case Assistant(_, _) => if open == [] && |h| > 1 then Some(CallsOf(h[|h| - 1])) else None
        case ToolResult(id, name, _, _) =>
          if open != [] && open[0].id == id && open[0].name == name then Some(open[1..]) else None
  }

  predicate Complete(h: seq<Message>) {
    h != [] && Unanswered(h) == Some([])
  }

  /** A result for each call, in order. */
  predicate Answers(results: seq<Message>, calls: seq<Call>) {
    |results| == |calls|
    && forall i :: 0 <= i < |calls| ==>
         results[i].ToolResult? && results[i].callId == calls[i].id && results[i].toolName == calls[i].name
  }

  lemma {:induction false} AnsweringCompletes(h: seq<Message>, calls: seq<Call>, results: seq<Message>)
    requires Unanswered(h) == Some(calls) && Answers(results, calls)
    ensures Unanswered(h + results) == Some([])
    decreases |results|
  {
    if results == [] {
      assert h + results == h;
    } else {
      var h' := h + [results[0]];
      assert h'[..|h'| - 1] == h;
      AnsweringCompletes(h', calls[1..], results[1..]);
      assert h' + results[1..] == h + results;
    }
  }

  lemma {:induction false} AssistantOpens(h: seq<Message>, m: Message)
    requires Complete(h) && m.Assistant?
    ensures Unanswered(h + [m]) == Some(CallsOf(m))
  {
    assert (h + [m])[..|h|] == h;
  }

  // ------------------------------------------------------------------
  // Flattening for the wrap-up request
  // ------------------------------------------------------------------

  const WRAP_UP_TOOL_RESULT_CAP := 2000

  const TRUNCATION_MARK := "[truncated]"

  function Capped(text: string): (r: string)
    ensures |r| <= WRAP_UP_TOOL_RESULT_CAP
    ensures |text| <= WRAP_UP_TOOL_RESULT_CAP ==> r == text
    ensures |text| > WRAP_UP_TOOL_RESULT_CAP ==>
              r == text[..WRAP_UP_TOOL_RESULT_CAP - |TRUNCATION_MARK|] + TRUNCATION_MARK
  {
    if |text| <= WRAP_UP_TOOL_RESULT_CAP then text
    else text[..WRAP_UP_TOOL_RESULT_CAP - |TRUNCATION_MARK|] + TRUNCATION_MARK
  }

  function Summaries(calls: seq<Call>): string {
    if calls == [] then ""
    else "{" + calls[0].id + "," + calls[0].name + "," + Capped(calls[0].args) + "}" + Summaries(calls[1..])
  }

  function MergedText(before: string, text: string): string {
    if before != "" && text != "" then before + "\n\n" + text else before + text
  }

  function AppendUser(out: seq<Message>, text: string): seq<Message> {
    if out != [] && out[|out| - 1].User? then
      out[..|out| - 1] + [User(Plain(MergedText(TextOf(out[|out| - 1].content), text)))]
    else out + [User(Plain(text))]
  }

  /** The calls of an assistant message as the flattening looks for them. */
  function CallsToSummarise(c: Content, toolCalls: Option<seq<Call>>): seq<Call> {
    match toolCalls
    case Some(calls) => calls
    case None => match c case Parts(ps) => UsesAmong(ps, true) case Plain(_) => []
  }

  function FlattenOne(out: seq<Message>, m: Message): seq<Message> {
    match m
    case ToolResult(id, name, text, _) => AppendUser(out, "Tool result (" + name + ", " + id + "): " + Capped(text))
    case User(c) => AppendUser(out, TextOf(c))
    case Assistant(c, toolCalls) =>
      var calls := CallsToSummarise(c, toolCalls);
      if calls == [] then out + [m]
      else
        var text := TextOf(c);
        out + [Assistant(Plain(text + (if text != "" then "\n" else "") + "Tool calls: " + Summaries(calls)), None)]
  }

  function Flatten(h: seq<Message>): seq<Message>
    decreases |h|
  {
    if h == [] then [] else FlattenOne(Flatten(h[..|h| - 1]), h[|h| - 1])
  }

  method FlattenWrapUpHistory(messages: seq<Message>) returns (out: seq<Message>)
    ensures out == Flatten(messages)
  {
    out := [];
    for i := 0 to |messages|
      invariant out == Flatten(messages[..i])
    {
      assert messages[..i + 1][..i] == messages[..i];
      out := FlattenOne(out, messages[i]);
    }
    assert messages[..|messages|] == messages;
  }

  /** What providers that want alternating roles and no tools accept. */
  ghost predicate NoTools(h: seq<Message>) {
    forall i :: 0 <= i < |h| ==> !h[i].ToolResult? && CallsOf(h[i]) == []
  }

  ghost predicate NoAdjacentUsers(h: seq<Message>) {
    forall i :: 0 <= i < |h| - 1 ==> !(h[i].User? && h[i + 1].User?)
  }

  ghost predicate PlainUsers(h: seq<Message>) {
    forall i :: 0 <= i < |h| && h[i].User? ==> h[i].content.Plain?
  }

  lemma {:induction false} FewerUses(ps: seq<Part>)
    requires UsesAmong(ps, true) == []
    ensures UsesAmong(ps, false) == []
  {
    if ps != [] {
      FewerUses(ps[1..]);
    }
  }

  lemma {:induction false} FlattenOneIsPlain(out: seq<Message>, m: Message)
    requires NoTools(out) && NoAdjacentUsers(out) && PlainUsers(out)
    ensures var out' := FlattenOne(out, m); NoTools(out') && NoAdjacentUsers(out') && PlainUsers(out') && out' != []
  {
    match m
    case Assistant(Parts(ps), None) =>
      if UsesAmong(ps, true) == [] {
        FewerUses(ps);
      }
    case _ =>
  }

  /**
   Whatever the history, its flattened form has no tool calls and no tool
   results, and never two user messages in a row.
   */
  lemma {:induction false} FlattenIsPlain(h: seq<Message>)
    ensures NoTools(Flatten(h)) && NoAdjacentUsers(Flatten(h)) && PlainUsers(Flatten(h))
    ensures h != [] ==> Flatten(h) != []
    decreases |h|
  {
    if h != [] {
      FlattenIsPlain(h[..|h| - 1]);
      FlattenOneIsPlain(Flatten(h[..|h| - 1]), h[|h| - 1]);
    }
  }

  /** The instruction appended for the wrap-up ends the request, whatever it was merged with. */
  lemma {:induction false} InstructionComesLast(h: seq<Message>, instruction: string)
    ensures var out := Flatten(h + [User(Plain(instruction))]);
            && out != []
            && out[|out| - 1].User?
            && EndsWith(TextOf(out[|out| - 1].content), instruction)
  {
    assert (h + [User(Plain(instruction))])[..|h|] == h;
  }

  // ------------------------------------------------------------------
  // What the flattening keeps
  // ------------------------------------------------------------------

  predicate HasAt(s: string, t: string, i: nat) {
    i + |t| <= |s| && s[i..i + |t|] == t
  }

  ghost predicate Contains(s: string, t: string) {
    exists i: nat :: HasAt(s, t, i)
  }

  /** The text says all the message said: results and arguments as far as the cap lets them through. */
  ghost predicate Says(out: Message, m: Message) {
    match m
    case User(c) => out.User? && Contains(TextOf(out.content), TextOf(c))
    case ToolResult(id, name, text, _) =>
      out.User? && Contains(TextOf(out.content), "(" + name + ", " + id + "): " + Capped(text))
    case Assistant(c, toolCalls) =>
      var calls := CallsToSummarise(c, toolCalls);
      if calls == [] then out == m
      else
        && out.Assistant? && Contains(TextOf(out.content), TextOf(c))
        && forall k :: 0 <= k < |calls| ==>
             Contains(TextOf(out.content), calls[k].id + "," + calls[k].name + "," + Capped(calls[k].args))
  }

  lemma {:induction false} ContainsWithin(a: string, t: string, b: string)
    ensures Contains(a + t + b, t)
  {
    assert HasAt(a + t + b, t, |a|);
  }

  lemma {:induction false} StillContains(a: string, s: string, b: string, t: string)
    requires Contains(s, t)
    ensures Contains(a + s + b, t)
  {
    var i: nat :| HasAt(s, t, i);
    assert (a + s + b)[|a| + i..|a| + i + |t|] == s[i..i + |t|];
    assert HasAt(a + s + b, t, |a| + i);
  }

  lemma {:induction false} SummariesSay(calls: seq<Call>, k: nat)
    requires k < |calls|
    ensures Contains(Summaries(calls), calls[k].id + "," + calls[k].name + "," + Capped(calls[k].args))
    decreases |calls|
  {
    hide Contains, Capped;
    var c := calls[0];
    var one := c.id + "," + c.name + "," + Capped(c.args);
    var rest := Summaries(calls[1..]);
    assert Summaries(calls) == "{" + one + ("}" + rest);
    if k == 0 {
      ContainsWithin("{", one, "}" + rest);
    } else {
      SummariesSay(calls[1..], k - 1);
      StillContains("{" + one + "}", rest, "", calls[k].id + "," + calls[k].name + "," + Capped(calls[k].args));
      assert "{" + one + "}" + rest + "" == Summaries(calls);
    }
  }

  lemma {:induction false} AppendedIsSaid(out: seq<Message>, text: string)
    ensures var out' := AppendUser(out, text);
            && out' != [] && out'[|out'| - 1].User? && Contains(TextOf(out'[|out'| - 1].content), text)
            && |out| <= |out'|
  {
    hide Contains;
    var out' := AppendUser(out, text);
    var last := TextOf(out'[|out'| - 1].content);
    assert text == last[|last| - |text|..];
    ContainsWithin(last[..|last| - |text|], text, "");
    assert last[..|last| - |text|] + text + "" == last;
  }

  lemma {:induction false} CallsAreSaid(out: seq<Message>, c: Content, toolCalls: Option<seq<Call>>)
    ensures var m := Assistant(c, toolCalls);
            var out' := FlattenOne(out, m);
            |out'| == |out| + 1 && Says(out'[|out|], m)
  {
    hide Contains, Capped;
    var m := Assistant(c, toolCalls);
    var calls := CallsToSummarise(c, toolCalls);
    if calls != [] {
      var text := TextOf(c);
      var lead := if text != "" then "\n" else "";
      var whole := text + lead + "Tool calls: " + Summaries(calls);
      assert FlattenOne(out, m)[|out|] == Assistant(Plain(whole), None);
      ContainsWithin("", text, lead + "Tool calls: " + Summaries(calls));
      assert "" + text + (lead + "Tool calls: " + Summaries(calls)) == whole;
      forall k | 0 <= k < |calls|
        ensures Contains(whole, calls[k].id + "," + calls[k].name + "," + Capped(calls[k].args))
      {
        SummariesSay(calls, k);
        StillContains(text + lead + "Tool calls: ", Summaries(calls), "",
                      calls[k].id + "," + calls[k].name + "," + Capped(calls[k].args));
        assert text + lead + "Tool calls: " + Summaries(calls) + "" == whole;
      }
    }
  }

  lemma {:induction false} ContainsIsTransitive(s: string, t: string, u: string)
    requires Contains(s, t) && Contains(t, u)
    ensures Contains(s, u)
  {
    hide Contains;
    var i := FirstAt(s, t);
    assert s == s[..i] + t + s[i + |t|..];
    StillContains(s[..i], t, s[i + |t|..], u);
  }

  lemma {:induction false} FirstAt(s: string, t: string) returns (i: nat)
    requires Contains(s, t)
    ensures i + |t| <= |s| && s[i..i + |t|] == t
  {
    i :| HasAt(s, t, i);
  }

  lemma {:induction false} ResultIsSaid(out: seq<Message>, m: Message)
    requires m.ToolResult?
    ensures var out' := FlattenOne(out, m);
            out' != [] && |out| <= |out'| && Says(out'[|out'| - 1], m)
  {
    hide Contains, Capped, AppendUser;
    var piece := "(" + m.toolName + ", " + m.callId + "): " + Capped(m.text);
    var said := "Tool result (" + m.toolName + ", " + m.callId + "): " + Capped(m.text);
    AppendedIsSaid(out, said);
    assert said == "Tool result " + piece + "";
    ContainsWithin("Tool result ", piece, "");
    var out' := FlattenOne(out, m);
    ContainsIsTransitive(TextOf(out'[|out'| - 1].content), said, piece);
  }

  lemma {:induction false} FlattenOneSays(out: seq<Message>, m: Message)
    ensures var out' := FlattenOne(out, m);
            out' != [] && |out| <= |out'| && Says(out'[|out'| - 1], m)
  {
    match m
    case Assistant(c, toolCalls) =>
      hide Says;
      CallsAreSaid(out, c, toolCalls);
    case User(c) =>
      hide Contains, AppendUser;
      AppendedIsSaid(out, TextOf(c));
    case ToolResult(_, _, _, _) =>
      hide Says;
      ResultIsSaid(out, m);
  }

  /** A message already there keeps its place and loses nothing. */
  lemma {:induction false} LongerSays(a: Message, b: Message, earlier: Message)
    requires a.User? && b.User? && TextOf(a.content) <= TextOf(b.content) && Says(a, earlier)
    ensures Says(b, earlier)
  {
    hide Contains, Capped;
    var before, after := TextOf(a.content), TextOf(b.content);
    assert after == "" + before + after[|before|..];
    match earlier
    case User(c) => StillContains("", before, after[|before|..], TextOf(c));
    case ToolResult(id, name, text, _) =>
      StillContains("", before, after[|before|..], "(" + name + ", " + id + "): " + Capped(text));
    case Assistant(_, _) => assert false;
  }

  lemma {:induction false} StillSaid(out: seq<Message>, m: Message, n: nat, earlier: Message)
    requires n < |out| && Says(out[n], earlier)
    ensures n < |FlattenOne(out, m)| && Says(FlattenOne(out, m)[n], earlier)
  {
    hide Says, Capped, Summaries, CallsToSummarise;
    var out' := FlattenOne(out, m);
    if out'[n] != out[n] {
      assert TextOf(out[n].content) <= TextOf(out'[n].content);
      LongerSays(out[n], out'[n], earlier);
    }
  }

  /**
   Nothing is lost: every message of the history is said in the flattened form, in the order of the
   history. What stands for message `i` is where the form ended when it was reached.
   */
  lemma {:induction false} FlattenSaysAll(h: seq<Message>, i: nat)
    requires i < |h|
    ensures var n := |Flatten(h[..i + 1])|;
            0 < n <= |Flatten(h)| && |Flatten(h[..i])| <= n && Says(Flatten(h)[n - 1], h[i])
    decreases |h|
  {
    hide Says, FlattenOne;
    var before, m := h[..|h| - 1], h[|h| - 1];
    FlattenOneSays(Flatten(before), m);
    if i == |h| - 1 {
      assert h[..i + 1] == h && h[..i] == before;
    } else {
      FlattenSaysAll(before, i);
      assert before[..i + 1] == h[..i + 1] && before[..i] == h[..i];
      StillSaid(Flatten(before), m, |Flatten(h[..i + 1])| - 1, h[i]);
    }
  }

  function NotExecuted(calls: seq<Call>, text: string): seq<Message> {
    seq(|calls|, i requires 0 <= i < |calls| => ToolResult(calls[i].id, calls[i].name, text, true))
  }

  /** Record pending calls as errors without running them. */
  method AppendNotExecutedResults(history: seq<Message>, calls: seq<Call>, text: string) returns (h: seq<Message>)
    ensures h == history + NotExecuted(calls, text)
    ensures Answers(h[|history|..], calls)
  {
    h := history;
    for i := 0 to |calls|
      invariant h == history + NotExecuted(calls, text)[..i]
    {
      h := h + [ToolResult(calls[i].id, calls[i].name, text, true)];
      assert NotExecuted(calls, text)[..i + 1] == NotExecuted(calls, text)[..i] + [NotExecuted(calls, text)[i]];
    }
    assert NotExecuted(calls, text)[..|calls|] == NotExecuted(calls, text);
  }
}

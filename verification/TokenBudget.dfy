/**
 The token estimate, in exact thousandths of a token over code points, and the
 trimming of prompt sections to a budget of estimated tokens.
 */
module TokenBudget {
  import opened TextLines

  const LATIN_WEIGHT := 250
  const CJK_WEIGHT := 667
  const EMOJI_WEIGHT := 1000

  predicate IsCJK(cp: int) {
    || 0x3000 <= cp <= 0x303f || 0x3040 <= cp <= 0x309f || 0x30a0 <= cp <= 0x30ff
    || 0x3400 <= cp <= 0x4dbf || 0x4e00 <= cp <= 0x9fff || 0xac00 <= cp <= 0xd7af
    || 0xf900 <= cp <= 0xfaff || 0xff00 <= cp <= 0xffef || 0x20000 <= cp <= 0x2fa1f
  }

  predicate IsEmoji(cp: int) {
    0x2600 <= cp <= 0x27bf || 0x1f000 <= cp <= 0x1faff || 0x1fb00 <= cp <= 0x1fbff
  }

  predicate IsCombiner(cp: int) {
    cp == 0x200d || 0xfe00 <= cp <= 0xfe0f
  }

  function Weight(c: char): nat {
    var cp := c as int;
    if IsCombiner(cp) then 0 else if IsEmoji(cp) then EMOJI_WEIGHT else if IsCJK(cp) then CJK_WEIGHT else LATIN_WEIGHT
  }

  function Total(s: string): nat
    decreases |s|
  {
    if s == "" then 0 else Total(s[..|s| - 1]) + Weight(s[|s| - 1])
  }

  function Estimate(s: string): nat {
    (Total(s) + 999) / 1000
  }

  method EstimateTokens(text: string) returns (tokens: nat)
    ensures tokens == Estimate(text)
  {
    var thousandths := 0;
    for i := 0 to |text|
      invariant thousandths == Total(text[..i])
    {
      assert text[..i + 1][..i] == text[..i];
      var cp := text[i] as int;
      if !IsCombiner(cp) {
        if IsEmoji(cp) {
          thousandths := thousandths + EMOJI_WEIGHT;
        } else if IsCJK(cp) {
          thousandths := thousandths + CJK_WEIGHT;
        } else {
          thousandths := thousandths + LATIN_WEIGHT;
        }
      }
    }
    assert text[..|text|] == text;
    return (thousandths + 999) / 1000;
  }

  lemma {:induction false} TotalConcat(a: string, b: string)
    ensures Total(a + b) == Total(a) + Total(b)
    decreases |b|
  {
    if b == "" {
      assert a + b == a;
    } else {
      TotalConcat(a, b[..|b| - 1]);
      assert (a + b)[..|a + b| - 1] == a + b[..|b| - 1];
    }
  }

  /** Estimating in pieces costs at most one token for each cut, and never less. */
  lemma {:induction false} EstimateConcat(a: string, b: string)
    ensures Estimate(a) + Estimate(b) - 1 <= Estimate(a + b) <= Estimate(a) + Estimate(b)
  {
    TotalConcat(a, b);
  }

  lemma {:induction false} UniformTotal(s: string, w: nat)
    requires forall i :: 0 <= i < |s| ==> Weight(s[i]) == w
    ensures Total(s) == |s| * w
    decreases |s|
  {
    if s == "" {
    } else {
      UniformTotal(s[..|s| - 1], w);
      assert |s| * w == (|s| - 1) * w + w;
    }
  }

  /** Below the general punctuation everything counts four characters to a token. */
  lemma {:induction false} FourLettersAToken(s: string)
    requires forall i :: 0 <= i < |s| ==> s[i] as int < 0x2000
    ensures Estimate(s) == (|s| + 3) / 4
  {
    UniformTotal(s, 250);
  }

  /** Kana, ideographs, Hangul and full-width forms count about three characters to two tokens. */
  lemma {:induction false} ThreeIdeographsTwoTokens(s: string)
    requires forall i :: 0 <= i < |s| ==>
               var cp := s[i] as int;
               || 0x3000 <= cp <= 0x30ff || 0x3400 <= cp <= 0x4dbf || 0x4e00 <= cp <= 0x9fff
               || 0xac00 <= cp <= 0xd7af || 0xf900 <= cp <= 0xfaff || 0xff00 <= cp <= 0xffef
               || 0x20000 <= cp <= 0x2fa1f
    ensures Estimate(s) == (667 * |s| + 999) / 1000
  {
    UniformTotal(s, 667);
  }

  /** Pictographs count one token each, and the marks that join or vary them count nothing. */
  lemma {:induction false} OneTokenAnEmoji(s: string, marks: string)
    requires forall i :: 0 <= i < |s| ==>
               0x2600 <= s[i] as int <= 0x27bf || 0x1f000 <= s[i] as int <= 0x1fbff
    requires forall i :: 0 <= i < |marks| ==> marks[i] as int == 0x200d || 0xfe00 <= marks[i] as int <= 0xfe0f
    ensures Estimate(s) == Estimate(s + marks) == |s|
  {
    UniformTotal(s, 1000);
    UniformTotal(marks, 0);
    TotalConcat(s, marks);
  }

  /** All other characters count like letters. */
  lemma {:induction false} OthersCountAsLetters(c: char)
    ensures var cp := c as int;
            Weight(c) == 250 <==>
              && !(0x3000 <= cp <= 0x30ff || 0x3400 <= cp <= 0x4dbf || 0x4e00 <= cp <= 0x9fff
                   || 0xac00 <= cp <= 0xd7af || 0xf900 <= cp <= 0xfaff || 0xff00 <= cp <= 0xffef
                   || 0x20000 <= cp <= 0x2fa1f)
              && !(0x2600 <= cp <= 0x27bf || 0x1f000 <= cp <= 0x1fbff)
              && cp != 0x200d && !(0xfe00 <= cp <= 0xfe0f)
  {
  }

  /** What the loop adds up for a run of lines. */
  function Cost(lines: seq<string>): nat
    decreases |lines|
  {
    if lines == [] then 0 else Cost(lines[..|lines| - 1]) + Estimate(lines[|lines| - 1] + "\n")
  }

  lemma {:induction false} JoinCostsAtMost(lines: seq<string>)
    ensures Estimate(Join(lines)) <= Cost(lines)
    decreases |lines|
  {
    var n := |lines|;
    if n == 1 {
      TotalConcat(lines[0], "\n");
      assert Cost(lines[..0]) == 0;
    } else if n > 1 {
      JoinCostsAtMost(lines[..n - 1]);
      var last := lines[n - 1];
      assert Join(lines) == Join(lines[..n - 1]) + ("\n" + last);
      EstimateConcat(Join(lines[..n - 1]), "\n" + last);
      TotalConcat("\n", last);
      TotalConcat(last, "\n");
    }
  }

  lemma {:induction false} CostGrows(lines: seq<string>, i: nat, j: nat)
    requires i <= j <= |lines|
    ensures Cost(lines[..i]) <= Cost(lines[..j])
    decreases j
  {
    if i < j {
      CostGrows(lines, i, j - 1);
      assert lines[..j][..j - 1] == lines[..j - 1];
    }
  }

  /** The first `k` lines are what fits: the next one would not, and the first is kept regardless. */
  predicate Fits(lines: seq<string>, budget: int, k: nat) {
    && 0 < k < |lines|
    && (k == 1 || Cost(lines[..k]) <= budget)
    && Cost(lines[..k + 1]) > budget
  }

  function Notice(note: string): string {
    "... (" + note + ")"
  }

  /**
   A section is returned unchanged unless it is over a positive budget and has a
   second line; otherwise its longest fitting prefix of lines, and a notice.
   */
  method TrimSectionToTokenBudget(text: string, maxTokens: int, note: string)
    returns (out: string, truncated: bool)
    ensures !truncated ==> out == text
    ensures truncated <==> maxTokens > 0 && Estimate(text) > maxTokens && |SplitLines(text)| >= 2
    ensures truncated ==> exists k: nat ::
                Fits(SplitLines(text), maxTokens, k)
                && out == Join(SplitLines(text)[..k]) + "\n" + Notice(note)
  {
    if maxTokens <= 0 || Estimate(text) <= maxTokens {
      return text, false;
    }
    var lines := SplitLines(text);
    var notice := Notice(note);
    var kept := [];
    var tokens := 0;
    for i := 0 to |lines|
      invariant kept == lines[..i]
      invariant tokens == Cost(lines[..i])
      invariant i > 1 ==> tokens <= maxTokens
    {
      assert lines[..i + 1][..i] == lines[..i];
      var lineTokens := Estimate(lines[i] + "\n");
      if |kept| > 0 && tokens + lineTokens > maxTokens {
        assert Fits(lines, maxTokens, i);
        JoinPush(kept, notice);
        kept := kept + [notice];
        return Join(kept), true;
      }
      kept := kept + [lines[i]];
      tokens := tokens + lineTokens;
    }
    assert lines[..|lines|] == lines;
    JoinUndoesSplit(text);
    JoinCostsAtMost(lines);
    return Join(kept), false;
  }

  /**
   A trimmed section is a prefix of lines of the section, and its estimate is at
   most the larger of the budget and its first line, plus the notice.
   */
  lemma {:induction false} TrimmedWithinBudget(text: string, maxTokens: int, notice: string, k: nat)
    requires Fits(SplitLines(text), maxTokens, k)
    ensures var lines := SplitLines(text);
            var out := Join(lines[..k]) + "\n" + notice;
            && Join(lines[..k]) + "\n" <= text
            && SplitLines(Join(lines[..k])) == lines[..k]
            && Estimate(out) <= (if k == 1 then Estimate(lines[0]) else maxTokens) + Estimate("\n" + notice)
  {
    hide SplitLines, Estimate;
    var lines := SplitLines(text);
    var head := Join(lines[..k]);
    PrefixOfText(text, k);
    SplitGivesLines(text);
    SplitUndoesJoin(lines[..k]);
    JoinCostsAtMost(lines[..k]);
    EstimateConcat(head, "\n" + notice);
    assert head + "\n" + notice == head + ("\n" + notice);
    if k == 1 {
      assert head == lines[0];
    }
  }

  lemma {:induction false} PrefixOfText(text: string, k: nat)
    requires 0 < k < |SplitLines(text)|
    ensures Join(SplitLines(text)[..k]) + "\n" <= text
  {
    var lines := SplitLines(text);
    JoinUndoesSplit(text);
    JoinConcat(lines[..k], lines[k..]);
    assert lines[..k] + lines[k..] == lines;
  }

  /** No other prefix fits: the number of lines kept is determined. */
  lemma {:induction false} FitIsUnique(lines: seq<string>, budget: int, j: nat, k: nat)
    requires Fits(lines, budget, j) && Fits(lines, budget, k)
    ensures j == k
  {
    if j < k {
      CostGrows(lines, j + 1, k);
    } else if k < j {
      CostGrows(lines, k + 1, j);
    }
  }

  // ------------------------------------------------------------------
  // The recent-turns section
  // ------------------------------------------------------------------

  const HEADER := "# Recent Turns"
  const NO_EVENTS := "# Recent Turns\n\n(no recent events)"
  const TRUNCATED_LINE := "\n... (truncated due to token budget)"

  /** What the loop charges for the lines. */
  function LineCost(lines: seq<string>): nat
    decreases |lines|
  {
    if lines == [] then 0 else LineCost(lines[..|lines| - 1]) + Estimate(lines[|lines| - 1])
  }

  /** What the lines weigh, in thousandths. */
  function LineWeight(lines: seq<string>): nat
    decreases |lines|
  {
    if lines == [] then 0 else LineWeight(lines[..|lines| - 1]) + Total(lines[|lines| - 1])
  }

  function Section(kept: seq<string>, truncated: bool): string {
    Join([HEADER] + kept + if truncated then [TRUNCATED_LINE] else [])
  }

  /**
   Rendered event lines are added under the header while they fit; a line that
   does not fit ends the section with a notice. A zero budget means no limit, and
   an event that renders to nothing adds no line.
   */
  method BuildRecentTurns(anyEvents: bool, rendered: seq<string>, budget: nat)
    returns (text: string, truncated: bool, ghost kept: seq<string>)
    requires !anyEvents ==> rendered == []
    ensures text == if anyEvents then Section(kept, truncated) else NO_EVENTS
    ensures kept <= NonBlank(rendered)
    ensures !truncated ==> kept == NonBlank(rendered)
    ensures truncated <==>
              budget > 0 && NonBlank(rendered) != [] && Estimate(HEADER) + LineCost(NonBlank(rendered)) > budget
    ensures budget > 0 && kept != [] ==> Estimate(HEADER) + LineCost(kept) <= budget
    ensures truncated ==>
              && |kept| < |NonBlank(rendered)|
              && Estimate(HEADER) + LineCost(NonBlank(rendered)[..|kept| + 1]) > budget
  {
    hide Estimate, Join, LineCost;
    kept, truncated := [], false;
    if !anyEvents {
      return NO_EVENTS, false, [];
    }
    var lines := [HEADER];
    var tokens := Estimate(HEADER);
    LineCostPush([], "");
    for i := 0 to |rendered|
      invariant kept == NonBlank(rendered[..i])
      invariant lines == [HEADER] + kept
      invariant tokens == Estimate(HEADER) + LineCost(kept)
      invariant budget > 0 && kept != [] ==> tokens <= budget
      invariant !truncated
    {
      assert rendered[..i + 1][..i] == rendered[..i];
      if rendered[i] != "" {
        if budget > 0 && tokens + Estimate(rendered[i]) > budget {
          CutHere(rendered, i, budget - Estimate(HEADER));
          lines := lines + [TRUNCATED_LINE];
          return Join(lines), true, kept;
        }
        LineCostPush(kept, rendered[i]);
        tokens := tokens + Estimate(rendered[i]);
        lines := lines + [rendered[i]];
        kept := kept + [rendered[i]];
      }
    }
    assert rendered[..|rendered|] == rendered;
    assert [HEADER] + kept + [] == lines;
    text := Join(lines);
  }

  function NonBlank(lines: seq<string>): seq<string>
    decreases |lines|
  {
    if lines == [] then []
    else NonBlank(lines[..|lines| - 1]) + if lines[|lines| - 1] == "" then [] else [lines[|lines| - 1]]
  }

  lemma {:induction false} NonBlankPrefix(lines: seq<string>, i: nat)
    requires i <= |lines|
    ensures NonBlank(lines[..i]) <= NonBlank(lines)
    decreases |lines|
  {
    if i < |lines| {
      NonBlankPrefix(lines[..|lines| - 1], i);
      assert lines[..|lines| - 1][..i] == lines[..i];
    } else {
      assert lines[..i] == lines;
    }
  }

  lemma {:induction false} LineCostPush(kept: seq<string>, line: string)
    ensures LineCost(kept + [line]) == LineCost(kept) + Estimate(line)
    ensures LineCost([]) == 0
  {
    assert (kept + [line])[..|kept|] == kept;
  }

  lemma {:induction false} NextIsKept(rendered: seq<string>, i: nat)
    requires i < |rendered| && rendered[i] != ""
    ensures NonBlank(rendered[..i]) + [rendered[i]] <= NonBlank(rendered)
  {
    assert rendered[..i + 1][..i] == rendered[..i];
    NonBlankPrefix(rendered, i + 1);
  }

  /** A line that does not fit ends the prefix kept, and all lines together do not fit either. */
  lemma {:induction false} CutHere(rendered: seq<string>, i: nat, left: int)
    requires i < |rendered| && rendered[i] != ""
    requires LineCost(NonBlank(rendered[..i])) + Estimate(rendered[i]) > left
    ensures var kept, all := NonBlank(rendered[..i]), NonBlank(rendered);
            && kept <= all && |kept| < |all|
            && LineCost(all[..|kept| + 1]) > left && LineCost(all) > left
  {
    hide Estimate, LineCost, NonBlank;
    var kept, all := NonBlank(rendered[..i]), NonBlank(rendered);
    NextIsKept(rendered, i);
    assert all[..|kept| + 1] == kept + [rendered[i]];
    LineCostPush(kept, rendered[i]);
    LineCostGrows(all, |kept| + 1, |all|);
    assert all[..|all|] == all;
  }

  lemma {:induction false} LineCostGrows(lines: seq<string>, i: nat, j: nat)
    requires i <= j <= |lines|
    ensures LineCost(lines[..i]) <= LineCost(lines[..j])
    decreases j
  {
    if i < j {
      LineCostGrows(lines, i, j - 1);
      assert lines[..j][..j - 1] == lines[..j - 1];
    }
  }

  /** A text under the header weighs its lines and a newline for each. */
  lemma {:induction false} JoinWeight(lines: seq<string>)
    ensures Total(Join([HEADER] + lines)) == Total(HEADER) + LineWeight(lines) + LATIN_WEIGHT * |lines|
    decreases |lines|
  {
    var n := |lines|;
    if n == 0 {
      assert [HEADER] + lines == [HEADER];
    } else {
      JoinWeight(lines[..n - 1]);
      var all := [HEADER] + lines;
      assert all[..|all| - 1] == [HEADER] + lines[..n - 1];
      TotalConcat(Join(all[..|all| - 1]) + "\n", lines[n - 1]);
      TotalConcat(Join(all[..|all| - 1]), "\n");
      assert "\n"[..0] == "" && Total("\n") == LATIN_WEIGHT;
    }
  }

  /** What the section weighs beyond its lines: the newlines, and the notice if it is cut. */
  function Uncharged(n: nat, truncated: bool): nat {
    LATIN_WEIGHT * n + if truncated then Total(TRUNCATED_LINE) + LATIN_WEIGHT else 0
  }

  /** The section's weight is exactly that of what it holds. */
  lemma {:induction false} SectionWeight(kept: seq<string>, truncated: bool)
    ensures Total(Section(kept, truncated)) == Total(HEADER) + LineWeight(kept) + Uncharged(|kept|, truncated)
  {
    if truncated {
      var lines := kept + [TRUNCATED_LINE];
      assert [HEADER] + kept + [TRUNCATED_LINE] == [HEADER] + lines;
      JoinWeight(lines);
      assert lines[..|lines| - 1] == kept;
    } else {
      assert [HEADER] + kept + [] == [HEADER] + kept;
      JoinWeight(kept);
    }
  }

  /**
   The section stays within its budget if and only if the slack that rounding left
   in the charges covers the newlines and the notice, neither of which is charged.
   */
  lemma {:induction false} WithinBudgetIff(kept: seq<string>, truncated: bool, budget: nat)
    ensures Estimate(Section(kept, truncated)) <= budget
            <==> Uncharged(|kept|, truncated) <= 1000 * budget - Total(HEADER) - LineWeight(kept)
  {
    SectionWeight(kept, truncated);
  }

  lemma {:induction false} WeightWithinCost(kept: seq<string>)
    ensures LineWeight(kept) <= 1000 * LineCost(kept)
    decreases |kept|
  {
    if kept != [] {
      WeightWithinCost(kept[..|kept| - 1]);
    }
  }

  /** The overrun is at most the newlines and the notice. */
  lemma {:induction false} RecentTurnsOverrun(kept: seq<string>, truncated: bool, budget: nat)
    requires Estimate(HEADER) + LineCost(kept) <= budget
    ensures Total(Section(kept, truncated)) <= 1000 * budget + Uncharged(|kept|, truncated)
  {
    SectionWeight(kept, truncated);
    WeightWithinCost(kept);
  }

  /** What `n` user messages saying "aa" render to: eight plain characters each, two tokens to the weight. */
  function ShortMessages(n: nat): seq<string> {
    if n == 0 then [] else ShortMessages(n - 1) + ["User: aa"]
  }

  lemma {:induction false} ShortMessageCost()
    ensures Total("User: aa") == 2000 && Estimate("User: aa") == 2 && "User: aa" != ""
  {
    WeightOfLatin("User: aa");
  }

  lemma {:induction false} OneMoreLine(lines: seq<string>, line: string)
    requires line != ""
    ensures LineCost(lines + [line]) == LineCost(lines) + Estimate(line)
    ensures LineWeight(lines + [line]) == LineWeight(lines) + Total(line)
    ensures NonBlank(lines + [line]) == NonBlank(lines) + [line]
  {
    assert (lines + [line])[..|lines|] == lines;
  }

  lemma {:induction false} ShortMessagesCost(n: nat)
    ensures |ShortMessages(n)| == n && LineCost(ShortMessages(n)) == 2 * n && LineWeight(ShortMessages(n)) == 2000 * n
    ensures NonBlank(ShortMessages(n)) == ShortMessages(n)
  {
    if n > 0 {
      hide Total, Estimate, LineCost, LineWeight, NonBlank;
      ShortMessagesCost(n - 1);
      ShortMessageCost();
      OneMoreLine(ShortMessages(n - 1), "User: aa");
    }
  }

  lemma {:induction false} WeightOfLatin(s: string)
    requires forall i :: 0 <= i < |s| ==> s[i] as int < 0x80
    ensures Total(s) == LATIN_WEIGHT * |s|
    decreases |s|
  {
    if s != "" {
      WeightOfLatin(s[..|s| - 1]);
    }
  }

  /**
   The overrun happens and has no bound: `n` short user messages that fit their
   budget to the token are all kept, and the section exceeds the budget by about
   `n` quarters.
   */
  lemma {:induction false} FullBudgetOverruns(n: nat)
    requires n >= 3
    ensures var lines := ShortMessages(n);
            var budget := Estimate(HEADER) + 2 * n;
            && NonBlank(lines) == lines && Estimate(HEADER) + LineCost(lines) == budget
            && Estimate(Section(lines, false)) > budget
            && 4 * Estimate(Section(lines, false)) >= 4 * budget + n - 2
  {
    ShortMessagesCost(n);
    WeightOfLatin(HEADER);
    SectionWeight(ShortMessages(n), false);
  }
}

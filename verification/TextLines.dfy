/** Splitting a text at newlines and joining lines again. */
module TextLines {

  /** The pieces between newlines; never empty. */
  function SplitLines(s: string): (r: seq<string>)
    ensures r != []
    decreases |s|
  {
    if s == "" then [""]
    else if s[|s| - 1] == '\n' then SplitLines(s[..|s| - 1]) + [""]
    else
      var before := SplitLines(s[..|s| - 1]);
      before[..|before| - 1] + [before[|before| - 1] + [s[|s| - 1]]]
  }

  function Join(lines: seq<string>): string
    decreases |lines|
  {
    if lines == [] then ""
    else if |lines| == 1 then lines[0]
    else Join(lines[..|lines| - 1]) + "\n" + lines[|lines| - 1]
  }

  lemma {:induction false} SplitAppend(s: string, line: string)
    requires '\n' !in line
    ensures var r := SplitLines(s);
            SplitLines(s + line) == r[..|r| - 1] + [r[|r| - 1] + line]
    decreases |line|
  {
    var r := SplitLines(s);
    if line == "" {
      assert s + line == s && r[|r| - 1] + line == r[|r| - 1];
    } else {
      var head := line[..|line| - 1];
      SplitAppend(s, head);
      assert (s + line)[..|s + line| - 1] == s + head;
      assert (s + line)[|s + line| - 1] == line[|line| - 1];
      assert r[|r| - 1] + head + [line[|line| - 1]] == r[|r| - 1] + line;
    }
  }

  lemma {:induction false} SplitGivesLines(s: string)
    ensures forall i :: 0 <= i < |SplitLines(s)| ==> '\n' !in SplitLines(s)[i]
    decreases |s|
  {
    if s != "" {
      SplitGivesLines(s[..|s| - 1]);
    }
  }

  /** Joining the pieces of a text gives the text. */
  lemma {:induction false} JoinUndoesSplit(s: string)
    ensures Join(SplitLines(s)) == s
    decreases |s|
  {
    if s != "" {
      var before, c := SplitLines(s[..|s| - 1]), s[|s| - 1];
      var n := |before|;
      JoinUndoesSplit(s[..|s| - 1]);
      assert SplitLines(s) == if c == '\n' then before + [""] else before[..n - 1] + [before[n - 1] + [c]];
      assert Join([before[n - 1]]) == before[n - 1] && Join([before[n - 1] + [c]]) == before[n - 1] + [c];
      hide SplitLines, Join;
      if c == '\n' {
        JoinPush(before, "");
      } else if n > 1 {
        assert before == before[..n - 1] + [before[n - 1]];
        JoinPush(before[..n - 1], before[n - 1]);
        JoinPush(before[..n - 1], before[n - 1] + [c]);
      }
    }
  }

  /** Splitting joined lines gives the lines. */
  lemma {:induction false} SplitUndoesJoin(lines: seq<string>)
    requires lines != [] && forall i :: 0 <= i < |lines| ==> '\n' !in lines[i]
    ensures SplitLines(Join(lines)) == lines
    decreases |lines|
  {
    var n := |lines|;
    if n == 1 {
      SplitAppend("", lines[0]);
      assert "" + lines[0] == lines[0];
    } else {
      SplitUndoesJoin(lines[..n - 1]);
      SplitPush(Join(lines[..n - 1]), lines[n - 1]);
      assert lines[..n - 1] + [lines[n - 1]] == lines;
    }
  }

  lemma {:induction false} SplitPush(s: string, line: string)
    requires '\n' !in line
    ensures SplitLines(s + "\n" + line) == SplitLines(s) + [line]
  {
    var head := s + "\n";
    assert head[..|head| - 1] == s;
    SplitAppend(head, line);
    var r := SplitLines(s) + [""];
    assert r[..|r| - 1] == SplitLines(s) && "" + line == line;
  }

  lemma {:induction false} JoinPush(lines: seq<string>, line: string)
    requires lines != []
    ensures Join(lines + [line]) == Join(lines) + "\n" + line
  {
    assert (lines + [line])[..|lines|] == lines;
  }

  /** Two runs of lines join with one newline between them. */
  lemma {:induction false} JoinConcat(a: seq<string>, b: seq<string>)
    requires a != [] && b != []
    ensures Join(a + b) == Join(a) + "\n" + Join(b)
    decreases |b|
  {
    var ab := a + b;
    if |b| == 1 {
      assert ab[..|ab| - 1] == a;
    } else {
      JoinConcat(a, b[..|b| - 1]);
      assert ab[..|ab| - 1] == a + b[..|b| - 1];
      assert Join(a) + "\n" + Join(b[..|b| - 1]) + "\n" + b[|b| - 1] == Join(a) + "\n" + Join(b);
    }
  }
}

/**
 The text of the event log: one JSON object per line, each line ended by a
 newline, read back by trimming, splitting, dropping empty lines and parsing.
 */
module LogText {
  import opened Options
  import opened JsonText
  import opened Spaces
  import opened TextLines

  datatype Event = Event(
    eventId: string,
    sessionId: string,
    timestamp: string,   // a number token
    kind: string,
    actor: string,
    payload: Members)

  ghost predicate EventOk(e: Event) {
    IsNumToken(e.timestamp) && MembersWellFormed(e.payload)
  }

  function ToJson(e: Event): Json {
    Obj(Member("event_id", Str(e.eventId),
        Member("session_id", Str(e.sessionId),
        Member("timestamp", Num(e.timestamp),
        Member("kind", Str(e.kind),
        Member("actor", Str(e.actor),
        Member("payload", Obj(e.payload), NoMembers)))))))
  }

  function FromJson(v: Json): Option<Event> {
    match v
    case Obj(Member("event_id", Str(id), Member("session_id", Str(sid), Member("timestamp", Num(ts),
             Member("kind", Str(kind), Member("actor", Str(actor), Member("payload", Obj(payload), NoMembers)))))))
      => Some(Event(id, sid, ts, kind, actor, payload))
    case _ => None
  }

  function LineOf(e: Event): string {
    Write(ToJson(e))
  }

  function ParseLine(line: string): Option<Event> {
    match Parse(line)
    case None => None
    case Some(v) => FromJson(v)
  }

  /** The file after the events were appended one by one. */
  function FileText(es: seq<Event>): string
    decreases |es|
  {
    if es == [] then "" else FileText(es[..|es| - 1]) + LineOf(es[|es| - 1]) + "\n"
  }

  // ------------------------------------------------------------------
  // Reading the file back
  // ------------------------------------------------------------------

  function NonEmpty(lines: seq<string>): seq<string>
    decreases |lines|
  {
    if lines == [] then []
    else NonEmpty(lines[..|lines| - 1]) + if lines[|lines| - 1] == "" then [] else [lines[|lines| - 1]]
  }

  /** All lines parsed, or None as soon as one cannot be. */
  function ParseLines(lines: seq<string>): Option<seq<Event>>
    decreases |lines|
  {
    if lines == [] then Some([])
    else match (ParseLines(lines[..|lines| - 1]), ParseLine(lines[|lines| - 1]))
      case (Some(es), Some(e)) => Some(es + [e])
      case _ => None
  }

  /** A file with a line that does not parse reads as no events at all. */
  function ReadBack(content: string): seq<Event> {
    match ParseLines(NonEmpty(SplitLines(Trim(content))))
    case Some(es) => es
    case None => []
  }

  // ------------------------------------------------------------------
  // Reading undoes writing
  // ------------------------------------------------------------------

  ghost predicate EventsOk(es: seq<Event>) {
    forall i :: 0 <= i < |es| ==> EventOk(es[i])
  }

  lemma {:induction false} ToJsonOk(e: Event)
    requires EventOk(e)
    ensures WellFormed(ToJson(e))
  {
    var m1 := Member("payload", Obj(e.payload), NoMembers);
    var m2 := Member("actor", Str(e.actor), m1);
    var m3 := Member("kind", Str(e.kind), m2);
    var m4 := Member("timestamp", Num(e.timestamp), m3);
    assert WellFormed(Obj(e.payload)) && WellFormed(Num(e.timestamp));
    assert MembersWellFormed(m1);
    assert MembersWellFormed(m2);
    assert MembersWellFormed(m3);
    assert MembersWellFormed(m4);
    assert MembersWellFormed(Member("session_id", Str(e.sessionId), m4));
  }

  lemma {:induction false} LineReads(e: Event)
    requires EventOk(e)
    ensures ParseLine(LineOf(e)) == Some(e)
    ensures '\n' !in LineOf(e)
    ensures LineOf(e) != "" && LineOf(e)[0] == '{' && LineOf(e)[|LineOf(e)| - 1] == '}'
  {
    ToJsonOk(e);
    ParseUndoesWrite(ToJson(e));
    WriteIsOneLine(ToJson(e));
  }

  /** The lines of the file, without the last newline. */
  lemma {:induction false} FileSplits(es: seq<Event>)
    requires EventsOk(es)
    ensures SplitLines(FileText(es)) == Lines(es) + [""]
    decreases |es|
  {
    if es != [] {
      var before, last := es[..|es| - 1], es[|es| - 1];
      FileSplits(before);
      LineReads(last);
      SplitAppend(FileText(before), LineOf(last));
      var s := FileText(before) + LineOf(last);
      assert (Lines(before) + [""])[..|Lines(before)|] == Lines(before);
      assert "" + LineOf(last) == LineOf(last);
      assert SplitLines(s) == Lines(es);
      assert FileText(es) == s + "\n";
      assert (s + "\n")[..|s + "\n"| - 1] == s;
    }
  }

  function Lines(es: seq<Event>): seq<string>
    decreases |es|
  {
    if es == [] then [] else Lines(es[..|es| - 1]) + [LineOf(es[|es| - 1])]
  }

  lemma {:induction false} LinesRead(es: seq<Event>)
    requires EventsOk(es)
    ensures NonEmpty(Lines(es)) == Lines(es)
    ensures ParseLines(Lines(es)) == Some(es)
    ensures |Lines(es)| == |es|
    decreases |es|
  {
    if es != [] {
      LinesRead(es[..|es| - 1]);
      LineReads(es[|es| - 1]);
      var ls := Lines(es);
      assert ls[..|ls| - 1] == Lines(es[..|es| - 1]);
      assert es[..|es| - 1] + [es[|es| - 1]] == es;
    }
  }

  lemma {:induction false} FileEnds(es: seq<Event>)
    requires EventsOk(es) && es != []
    ensures var s := FileText(es);
            && |s| >= 2 && s[0] == '{' && s[|s| - 1] == '\n' && s[|s| - 2] == '}'
    decreases |es|
  {
    LineReads(es[|es| - 1]);
    if |es| > 1 {
      FileEnds(es[..|es| - 1]);
    }
  }

  /** Trimming takes off exactly the last newline. */
  lemma {:induction false} TrimFile(es: seq<Event>)
    requires EventsOk(es) && es != []
    ensures Trim(FileText(es)) == FileText(es)[..|FileText(es)| - 1]
  {
    FileEnds(es);
    var s := FileText(es);
    assert TrimStart(s) == s;
    var t := s[..|s| - 1];
    assert t[|t| - 1] == '}';
    assert TrimEnd(t) == t;
  }

  /** Reading the file gives back exactly the events written to it, in order. */
  lemma {:induction false} ReadBackUndoesWrite(es: seq<Event>)
    requires EventsOk(es)
    ensures ReadBack(FileText(es)) == es
  {
    if es == [] {
      assert SplitLines("") == [""];
      assert [""][..0] == [];
      assert NonEmpty([""]) == [];
    } else {
      TrimFile(es);
      FileSplits(es);
      LinesRead(es);
      var s := FileText(es);
      assert SplitLines(s) == SplitLines(s[..|s| - 1]) + [""] by {
        FileEnds(es);
      }
      assert (SplitLines(s[..|s| - 1]) + [""])[..|Lines(es)|] == (Lines(es) + [""])[..|Lines(es)|];
      assert SplitLines(s[..|s| - 1]) == Lines(es);
    }
  }

  // ------------------------------------------------------------------
  // Sizes
  // ------------------------------------------------------------------

  /** Bytes of a character in UTF-8. */
  function CharBytes(c: char): nat {
    if c as int < 0x80 then 1 else if c as int < 0x800 then 2 else if c as int < 0x10000 then 3 else 4
  }

  function Bytes(s: string): nat
    decreases |s|
  {
    if s == "" then 0 else Bytes(s[..|s| - 1]) + CharBytes(s[|s| - 1])
  }

  lemma {:induction false} BytesAppend(a: string, b: string)
    ensures Bytes(a + b) == Bytes(a) + Bytes(b)
    ensures b != "" ==> Bytes(b) > 0
    decreases |b|
  {
    if b == "" {
      assert a + b == a;
    } else {
      BytesAppend(a, b[..|b| - 1]);
      assert (a + b)[..|a + b| - 1] == a + b[..|b| - 1];
    }
  }

  /** Each event makes the file longer: a size is the size of one prefix only. */
  lemma {:induction false} SizeTellsHowMany(es: seq<Event>, i: nat, j: nat)
    requires i <= j <= |es|
    ensures Bytes(FileText(es[..i])) <= Bytes(FileText(es[..j]))
    ensures Bytes(FileText(es[..i])) == Bytes(FileText(es[..j])) ==> i == j
    decreases j
  {
    hide LineOf, Bytes;
    if i < j {
      SizeTellsHowMany(es, i, j - 1);
      assert es[..j][..j - 1] == es[..j - 1];
      var before := FileText(es[..j - 1]);
      BytesAppend(before, LineOf(es[j - 1]));
      BytesAppend(before + LineOf(es[j - 1]), "\n");
    }
  }
}

/** What a provider writes on the wire is what the reader reads off it. */
module SseFormat {
  import opened Common
  import opened SseStream

  // ---------------------------------------------------------------------------
  // Stripping
  // ---------------------------------------------------------------------------

  ghost predicate AllSpace(s: string) {
    forall i :: 0 <= i < |s| ==> IsSpace(s[i])
  }

  ghost predicate Bare(s: string) {
    s == "" || (!IsSpace(s[0]) && !IsSpace(s[|s| - 1]))
  }

  lemma {:induction false} StripLeftOf(before: string, s: string)
    requires AllSpace(before) && (s == "" || !IsSpace(s[0]))
    ensures StripLeft(before + s) == s
  {
    if before == "" {
      assert before + s == s;
    } else {
      assert (before + s)[0] == before[0] && (before + s)[1..] == before[1..] + s;
      StripLeftOf(before[1..], s);
    }
  }

  lemma {:induction false} StripRightOf(s: string, after: string)
    requires AllSpace(after) && (s == "" || !IsSpace(s[|s| - 1]))
    ensures StripRight(s + after) == s
  {
    if after == "" {
      assert s + after == s;
    } else {
      var n := |after| - 1;
      assert (s + after)[|s| + n] == after[n] && (s + after)[..|s| + n] == s + after[..n];
      StripRightOf(s, after[..n]);
    }
  }

  /** Taking the white space off both ends of a bare text gives that text. */
  lemma StripOf(before: string, s: string, after: string)
    requires AllSpace(before) && AllSpace(after) && Bare(s)
    ensures Strip(before + s + after) == s
  {
    if s == "" {
      assert before + s + after == (before + after) + "";
      StripLeftOf(before + after, "");
    } else {
      assert before + s + after == before + (s + after) && (s + after)[0] == s[0];
      StripLeftOf(before, s + after);
      StripRightOf(s, after);
    }
  }

  lemma {:induction false} StripLeftSplits(s: string) returns (before: string)
    ensures AllSpace(before) && s == before + StripLeft(s)
    ensures StripLeft(s) == "" || !IsSpace(StripLeft(s)[0])
  {
    before := "";
    if s != "" && IsSpace(s[0]) {
      var rest := StripLeftSplits(s[1..]);
      before := [s[0]] + rest;
    }
  }

  lemma {:induction false} StripRightSplits(s: string) returns (after: string)
    ensures AllSpace(after) && s == StripRight(s) + after
    ensures StripRight(s) == "" || !IsSpace(StripRight(s)[|StripRight(s)| - 1])
  {
    after := "";
    if s != "" && IsSpace(s[|s| - 1]) {
      var rest := StripRightSplits(s[..|s| - 1]);
      after := rest + [s[|s| - 1]];
    }
  }

  /** A stripped text is bare, and only white space was taken off. */
  lemma StripMeans(s: string) returns (before: string, after: string)
    ensures AllSpace(before) && AllSpace(after) && Bare(Strip(s)) && s == before + Strip(s) + after
  {
    before := StripLeftSplits(s);
    after := StripRightSplits(StripLeft(s));
  }

  // ---------------------------------------------------------------------------
  // Lines
  // ---------------------------------------------------------------------------

  ghost predicate NoBreak(s: string) {
    forall i :: 0 <= i < |s| ==> !IsLineBreak(s[i])
  }

  /** A carriage return and line feed together, or any single break. */
  predicate IsEnd(e: string) {
    e == "\r\n" || (|e| == 1 && IsLineBreak(e[0]))
  }

  /** The lines of a text with their ends; the last line needs no end but must then not be empty. */
  ghost predicate AreLines(lines: seq<string>, ends: seq<string>, s: string)
    decreases |lines|
  {
    && |ends| == |lines|
    && if lines == [] then s == ""
       else
         var head := lines[0] + ends[0];
         && NoBreak(lines[0]) && head <= s
         && if ends[0] == "" then |lines| == 1 && lines[0] != "" && s == head
            else
              && IsEnd(ends[0]) && !(ends[0] == "\r" && "\n" <= s[|head|..])
              && AreLines(lines[1..], ends[1..], s[|head|..])
  }

  lemma {:induction false} LinesOfFirst(read: string, line: string, e: string, tail: string)
    requires NoBreak(line) && IsEnd(e) && !(e == "\r" && "\n" <= tail)
    ensures Lines(read, line + e + tail) == [read + line] + Lines("", tail)
    decreases |line|
  {
    var s := line + e + tail;
    if line == "" {
      assert s == e + tail && read + line == read;
      assert s[|e|..] == tail;
    } else {
      assert s[0] == line[0] && s[1..] == line[1..] + e + tail;
      LinesOfFirst(read + [line[0]], line[1..], e, tail);
      assert read + [line[0]] + line[1..] == read + line;
    }
  }

  lemma {:induction false} LinesOfLast(read: string, line: string)
    requires NoBreak(line)
    ensures Lines(read, line) == if read + line == "" then [] else [read + line]
    decreases |line|
  {
    if line == "" {
      assert read + line == read;
    } else {
      LinesOfLast(read + [line[0]], line[1..]);
      assert read + [line[0]] + line[1..] == read + line;
    }
  }

  /** Whatever are the lines of a text is what the reader takes for them. */
  lemma {:induction false} LinesAreTheLines(lines: seq<string>, ends: seq<string>, s: string)
    requires AreLines(lines, ends, s)
    ensures Lines("", s) == lines
    decreases |lines|
  {
    if lines != [] {
      var head := lines[0] + ends[0];
      if ends[0] == "" {
        assert s == lines[0];
        LinesOfLast("", s);
        assert "" + s == s;
      } else {
        var tail := s[|head|..];
        assert s == lines[0] + ends[0] + tail;
        LinesOfFirst("", lines[0], ends[0], tail);
        LinesAreTheLines(lines[1..], ends[1..], tail);
        assert "" + lines[0] == lines[0] && lines == [lines[0]] + lines[1..];
      }
    }
  }

  lemma FirstEnd(read: string, s: string) returns (e: string)
    requires s != "" && IsLineBreak(s[0])
    ensures IsEnd(e) && e <= s && !(e == "\r" && "\n" <= s[|e|..])
    ensures Lines(read, s) == [read] + Lines("", s[|e|..])
  {
    e := if s[0] == '\r' && |s| > 1 && s[1] == '\n' then s[..2] else s[..1];
  }

  lemma LastLine(line: string) returns (ends: seq<string>)
    requires NoBreak(line)
    ensures AreLines(Lines(line, ""), ends, line)
  {
    ends := if line == "" then [] else [""];
    assert line + "" == line;
  }

  lemma EndedLine(whole: string, line: string, e: string, lines: seq<string>, ends: seq<string>)
    requires NoBreak(line) && IsEnd(e) && line + e <= whole && !(e == "\r" && "\n" <= whole[|line + e|..])
    requires AreLines(lines, ends, whole[|line + e|..])
    ensures AreLines([line] + lines, [e] + ends, whole)
  {
    assert ([line] + lines)[1..] == lines && ([e] + ends)[1..] == ends;
  }

  lemma CutAfter(read: string, e: string, s: string, whole: string)
    requires whole == read + s && e <= s
    ensures read + e <= whole && whole[|read + e|..] == s[|e|..] && s[|e|..] == "" + s[|e|..]
  {}

  lemma ReadOn(read: string, s: string)
    requires NoBreak(read) && s != "" && !IsLineBreak(s[0])
    ensures NoBreak(read + [s[0]]) && read + s == read + [s[0]] + s[1..] && Lines(read, s) == Lines(read + [s[0]], s[1..])
  {}

  /** And every text has such lines: those the reader takes, here with the beginning of the first already read. */
  lemma {:induction false} RestHasLines(read: string, s: string, whole: string) returns (ends: seq<string>)
    requires NoBreak(read) && whole == read + s
    ensures AreLines(Lines(read, s), ends, whole)
    decreases |s|
  {
    if s == "" {
      assert whole == read;
      ends := LastLine(read);
    } else if IsLineBreak(s[0]) {
      var e := FirstEnd(read, s);
      var tail := s[|e|..];
      CutAfter(read, e, s, whole);
      ends := RestHasLines("", tail, tail);
      EndedLine(whole, read, e, Lines("", tail), ends);
      ends := [e] + ends;
    } else {
      ReadOn(read, s);
      ends := RestHasLines(read + [s[0]], s[1..], whole);
    }
  }

  lemma EveryTextHasLines(s: string) returns (ends: seq<string>)
    ensures AreLines(Lines("", s), ends, s)
  {
    assert s == "" + s;
    ends := RestHasLines("", s, s);
  }

  // ---------------------------------------------------------------------------
  // A provider's stream
  // ---------------------------------------------------------------------------

  /** One line of an event: a payload, with or without a space after the colon, or anything else (a comment, another field). */
  datatype Line = DataLine(payload: string, spaced: bool) | OtherLine(text: string)

  /** The lines of one event. */
  type Sent = seq<Line>

  function WrittenLine(l: Line): string {
    match l
    case DataLine(payload, spaced) => "data:" + (if spaced then " " else "") + payload
    case OtherLine(text) => text
  }

  function Written(e: Sent): string {
    if e == [] then ""
    else if |e| == 1 then WrittenLine(e[0])
    else WrittenLine(e[0]) + "\n" + Written(e[1..])
  }

  function Wire(sent: seq<Sent>): string {
    if sent == [] then "" else Written(sent[0]) + "\n\n" + Wire(sent[1..])
  }

  ghost predicate WellWrittenLine(l: Line) {
    match l
    case DataLine(payload, _) => NoBreak(payload) && Bare(payload)
    case OtherLine(text) => NoBreak(text) && text != "" && !("data:" <= Strip(text))
  }

  /** At least one line, none of them empty, and no white space around payloads. */
  ghost predicate WellWritten(e: Sent) {
    e != [] && forall l :: l in e ==> WellWrittenLine(l)
  }

  /** The payloads of an event that decode, up to its end marker. */
  function EventPayloads(e: Sent, decode: Decoder): seq<Data> {
    if e == [] then []
    else if e[0].OtherLine? then EventPayloads(e[1..], decode)
    else if e[0].payload == "[DONE]" then []
    else (match decode(e[0].payload) case None => [] case Some(data) => [data]) + EventPayloads(e[1..], decode)
  }

  function Payloads(sent: seq<Sent>, decode: Decoder): seq<Data> {
    if sent == [] then [] else EventPayloads(sent[0], decode) + Payloads(sent[1..], decode)
  }

  lemma StripDataLine(gap: string, payload: string)
    requires AllSpace(gap) && Bare(payload)
    ensures Strip("data:" + gap + payload) == if payload == "" then "data:" else "data:" + gap + payload
  {
    var line := "data:" + gap + payload;
    if payload == "" {
      assert line == "" + "data:" + gap;
      StripOf("", "data:", gap);
    } else {
      assert line == "" + line + "" && line[0] == 'd' && line[|line| - 1] == payload[|payload| - 1];
      StripOf("", line, "");
    }
  }

  lemma StripPayload(gap: string, payload: string)
    requires AllSpace(gap) && Bare(payload)
    ensures Strip(gap + payload) == payload
  {
    assert gap + payload == gap + payload + "";
    StripOf(gap, payload, "");
  }

  function Meaning(payload: string, decode: Decoder): LineKind {
    if payload == "[DONE]" then Done
    else match decode(payload)
         case None => Skip
         case Some(data) => Payload(data)
  }

  lemma KindOfStripped(line: string, text: string, payload: string, decode: Decoder)
    requires Strip(line) == text && "data:" <= text && Strip(text[5..]) == payload
    ensures KindOf(line, decode) == Meaning(payload, decode)
  {}

  lemma KindOfPayload(payload: string, gap: string, decode: Decoder)
    requires Bare(payload) && AllSpace(gap)
    ensures KindOf("data:" + gap + payload, decode) == Meaning(payload, decode)
  {
    var line := "data:" + gap + payload;
    var text := if payload == "" then "data:" else line;
    StripDataLine(gap, payload);
    assert Strip(text[5..]) == payload by {
      assert text[5..] == (if payload == "" then "" else gap) + payload;
      StripPayload(if payload == "" then "" else gap, payload);
    }
    KindOfStripped(line, text, payload, decode);
  }

  /** A comment is another line: it begins with a colon, so that no data can be taken for it. */
  lemma CommentsAreOtherLines(text: string)
    requires NoBreak(text)
    ensures WellWrittenLine(OtherLine(":" + text))
  {
    StripRightKeepsFirst(":" + text);
  }

  lemma {:induction false} StripRightKeepsFirst(s: string)
    requires s != "" && !IsSpace(s[0])
    ensures StripRight(s) != "" && StripRight(s)[0] == s[0]
  {
    if IsSpace(s[|s| - 1]) {
      StripRightKeepsFirst(s[..|s| - 1]);
    }
  }

  lemma LineIsOne(l: Line)
    requires WellWrittenLine(l)
    ensures NoBreak(WrittenLine(l)) && WrittenLine(l) != ""
  {}

  lemma ReadLine(l: Line, decode: Decoder)
    requires WellWrittenLine(l)
    ensures KindOf(WrittenLine(l), decode) == if l.OtherLine? then Skip else Meaning(l.payload, decode)
  {
    if l.DataLine? {
      KindOfPayload(l.payload, if l.spaced then " " else "", decode);
    }
  }

  function WrittenLines(e: Sent): seq<string> {
    if e == [] then [] else [WrittenLine(e[0])] + WrittenLines(e[1..])
  }

  lemma {:induction false} EventLines(e: Sent)
    requires WellWritten(e)
    ensures Lines("", Written(e)) == WrittenLines(e)
  {
    var first, rest := WrittenLine(e[0]), e[1..];
    assert WellWrittenLine(e[0]) && "" + first == first;
    LineIsOne(e[0]);
    if |e| == 1 {
      LinesOfLast("", first);
      assert rest == [];
    } else {
      EventLines(rest);
      LinesOfFirst("", first, "\n", Written(rest));
    }
  }

  lemma {:induction false} ReadLines(e: Sent, decode: Decoder)
    requires forall l :: l in e ==> WellWrittenLine(l)
    ensures DataOfLines(WrittenLines(e), decode) == EventPayloads(e, decode)
  {
    if e != [] {
      ReadLine(e[0], decode);
      ReadLines(e[1..], decode);
      assert WrittenLines(e)[1..] == WrittenLines(e[1..]);
      assert [] + EventPayloads(e[1..], decode) == EventPayloads(e[1..], decode);
    }
  }

  /** No blank line inside an event or at its end. */
  lemma {:induction false} EventHasNoSep(e: Sent)
    requires WellWritten(e)
    ensures Written(e) != "" && Written(e)[0] != '\n' && NoSep(Written(e) + "\n")
  {
    var first, w := WrittenLine(e[0]), Written(e);
    assert WellWrittenLine(e[0]);
    LineIsOne(e[0]);
    if |e| == 1 {
      forall i: nat
        ensures !SepAt(w + "\n", i)
      {
        assert i < |w| ==> w[i] != '\n';
      }
    } else {
      var rest := Written(e[1..]);
      EventHasNoSep(e[1..]);
      assert w + "\n" == first + "\n" + (rest + "\n");
      forall i: nat
        ensures !SepAt(w + "\n", i)
      {
        if i < |first| {
          assert first[i] != '\n';
        } else if i > |first| {
          assert !SepAt(rest + "\n", i - |first| - 1);
        }
      }
    }
  }

  function AllWritten(sent: seq<Sent>): seq<string> {
    if sent == [] then [] else [Written(sent[0])] + AllWritten(sent[1..])
  }

  lemma {:induction false} ReadAll(sent: seq<Sent>, decode: Decoder)
    requires forall e :: e in sent ==> WellWritten(e)
    ensures Join(AllWritten(sent), "") == Wire(sent)
    ensures forall w :: w in AllWritten(sent) ==> NoSep(w + "\n")
    ensures DataOf(AllWritten(sent), decode) == Payloads(sent, decode)
  {
    if sent != [] {
      ReadAll(sent[1..], decode);
      EventHasNoSep(sent[0]);
      EventLines(sent[0]);
      ReadLines(sent[0], decode);
      assert AllWritten(sent)[1..] == AllWritten(sent[1..]);
    }
  }

  /** The reader finds in a well-written stream exactly the payloads its provider wrote, and leaves nothing in the buffer. */
  lemma StreamRoundTrip(sent: seq<Sent>, decode: Decoder)
    requires forall e :: e in sent ==> WellWritten(e)
    ensures Split(Wire(sent)).rest == "" && DataOf(Split(Wire(sent)).events, decode) == Payloads(sent, decode)
  {
    ReadAll(sent, decode);
    SplitIsTheOnlyOne(Parsed(AllWritten(sent), ""));
  }
}

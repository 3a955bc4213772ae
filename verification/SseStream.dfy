/**
 The streaming side of the OpenAI-compatible provider: an incremental reader of
 an event stream (section 9.2.5 of the WHATWG HTML Living Standard, LF line
 ends) and the fold of its `data:` lines into chunks.
 */
module SseStream {
  import opened Common

  // ---------------------------------------------------------------------------
  // Splitting the text into events
  // ---------------------------------------------------------------------------

  predicate SepAt(s: string, i: nat) {
    i + 1 < |s| && s[i] == '\n' && s[i + 1] == '\n'
  }

  ghost predicate NoSep(s: string) {
    forall i: nat :: !SepAt(s, i)
  }

  function FirstSep(s: string, i: nat): (r: Option<nat>)
    ensures r.Some? ==> i <= r.value && SepAt(s, r.value) && forall k: nat :: i <= k < r.value ==> !SepAt(s, k)
    ensures r.None? ==> forall k: nat :: i <= k ==> !SepAt(s, k)
    decreases |s| - i
  {
    if i + 1 >= |s| then None
    else if SepAt(s, i) then Some(i)
    else FirstSep(s, i + 1)
  }

  /** The complete events of a text and the unfinished rest. */
  datatype Parsed = Parsed(events: seq<string>, rest: string)

  function Split(s: string): Parsed
    decreases |s|
  {
    match FirstSep(s, 0)
    case None => Parsed([], s)
    case Some(i) =>
      var tail := Split(s[i + 2..]);
      Parsed([s[..i]] + tail.events, tail.rest)
  }

  function Join(events: seq<string>, rest: string): string {
    if events == [] then rest else events[0] + "\n\n" + Join(events[1..], rest)
  }

  /** What a split is, said without an algorithm: no separator hides in an event or in the rest. */
  ghost predicate IsSplit(s: string, p: Parsed) {
    && Join(p.events, p.rest) == s
    && NoSep(p.rest)
    && forall e :: e in p.events ==> NoSep(e + "\n")
  }

  lemma FirstSepUnique(s: string, i: nat)
    requires SepAt(s, i) && forall k: nat :: k < i ==> !SepAt(s, k)
    ensures FirstSep(s, 0) == Some(i)
  {}

  lemma FirstSepOfEvent(e: string, tail: string)
    requires NoSep(e + "\n")
    ensures FirstSep(e + "\n\n" + tail, 0) == Some(|e|)
  {
    var s := e + "\n\n" + tail;
    forall k: nat | k < |e|
      ensures !SepAt(s, k)
    {
      assert !SepAt(e + "\n", k);
      assert s[k] == (e + "\n")[k] && s[k + 1] == (e + "\n")[k + 1];
    }
    FirstSepUnique(s, |e|);
  }

  lemma {:induction false} SplitIsSplit(s: string)
    ensures IsSplit(s, Split(s))
    decreases |s|
  {
    var r := FirstSep(s, 0);
    if r.Some? {
      var i := r.value;
      SplitIsSplit(s[i + 2..]);
      assert s == s[..i] + "\n\n" + s[i + 2..];
      forall k: nat
        ensures !SepAt(s[..i] + "\n", k)
      {
        if k < i {
          assert !SepAt(s, k);
        }
      }
      assert Split(s).events[1..] == Split(s[i + 2..]).events;
    }
  }

  lemma {:induction false} SplitIsTheOnlyOne(p: Parsed)
    requires NoSep(p.rest) && forall e :: e in p.events ==> NoSep(e + "\n")
    ensures Split(Join(p.events, p.rest)) == p
    decreases |p.events|
  {
    if p.events != [] {
      var e, tail := p.events[0], Join(p.events[1..], p.rest);
      SplitIsTheOnlyOne(Parsed(p.events[1..], p.rest));
      FirstSepOfEvent(e, tail);
      var s := e + "\n\n" + tail;
      assert s[..|e|] == e && s[|e| + 2..] == tail;
    }
  }

  /** The reader's cut of a text is the only one there is. */
  lemma SplitIsUnique(s: string, p: Parsed)
    ensures IsSplit(s, p) <==> Split(s) == p
  {
    SplitIsSplit(s);
    if IsSplit(s, p) {
      SplitIsTheOnlyOne(p);
    }
  }

  lemma FirstSepAppend(s: string, t: string)
    requires FirstSep(s, 0).Some?
    ensures FirstSep(s + t, 0) == FirstSep(s, 0)
  {
    var i := FirstSep(s, 0).value;
    forall k: nat | k < i
      ensures !SepAt(s + t, k)
    {
      assert !SepAt(s, k);
    }
    FirstSepUnique(s + t, i);
  }

  function Glue(before: seq<string>, p: Parsed): Parsed {
    Parsed(before + p.events, p.rest)
  }

  /** Text that arrives later changes no event already cut off; it only extends the rest. */
  lemma {:induction false} SplitAppend(s: string, t: string)
    ensures Split(s + t) == Glue(Split(s).events, Split(Split(s).rest + t))
    decreases |s|
  {
    var r := FirstSep(s, 0);
    if r.None? {
      assert [] + Split(s + t).events == Split(s + t).events;
    } else {
      var head, tail := s[..r.value], s[r.value + 2..];
      FirstSepAppend(s, t);
      assert (s + t)[..r.value] == head && (s + t)[r.value + 2..] == tail + t;
      SplitAppend(tail, t);
      var later := Split(Split(tail).rest + t).events;
      assert [head] + (Split(tail).events + later) == ([head] + Split(tail).events) + later;
    }
  }

  /** The reader's state after a sequence of fragments, each appended to the buffer and cut at once. */
  function Fed(fragments: seq<string>): Parsed {
    if fragments == [] then Parsed([], "")
    else
      var before := Fed(fragments[..|fragments| - 1]);
      Glue(before.events, Split(before.rest + fragments[|fragments| - 1]))
  }

  /** However the network cuts the response, the events and the buffer are those of the whole text. */
  lemma {:induction false} FragmentationIndependence(fragments: seq<string>)
    ensures Fed(fragments) == Split(Flatten(fragments))
  {
    if fragments != [] {
      var front, last := fragments[..|fragments| - 1], fragments[|fragments| - 1];
      FragmentationIndependence(front);
      assert fragments == front + [last];
      FlattenSnoc(front, last);
      SplitAppend(Flatten(front), last);
    }
  }

  // ---------------------------------------------------------------------------
  // Lines of an event
  // ---------------------------------------------------------------------------

  predicate IsLineBreak(c: char) {
    c == '\n' || c == '\r' || c == '\U{B}' || c == '\U{C}' || c == '\U{1C}' || c == '\U{1D}' || c == '\U{1E}'
    || c == '\U{85}' || c == '\U{2028}' || c == '\U{2029}'
  }

  predicate IsSpace(c: char) {
    IsLineBreak(c) || c == ' ' || c == '\t' || c == '\U{1F}' || c == '\U{A0}' || c == '\U{1680}'
    || '\U{2000}' <= c <= '\U{200A}' || c == '\U{202F}' || c == '\U{205F}' || c == '\U{3000}'
  }

  function Lines(line: string, s: string): seq<string>
    decreases |s|
  {
    if s == "" then if line == "" then [] else [line]
    else if s[0] == '\r' && |s| > 1 && s[1] == '\n' then [line] + Lines("", s[2..])
    else if IsLineBreak(s[0]) then [line] + Lines("", s[1..])
    else Lines(line + [s[0]], s[1..])
  }

  function StripLeft(s: string): string {
    if s != "" && IsSpace(s[0]) then StripLeft(s[1..]) else s
  }

  function StripRight(s: string): string {
    if s != "" && IsSpace(s[|s| - 1]) then StripRight(s[..|s| - 1]) else s
  }

  function Strip(s: string): string {
    StripRight(StripLeft(s))
  }

  // ---------------------------------------------------------------------------
  // Folding data lines into chunks
  // ---------------------------------------------------------------------------

  datatype Usage = Usage(promptTokens: int, completionTokens: int, totalTokens: int)

  /** The first choice of a payload; absent and null texts are empty. */
  datatype Choice = Choice(content: string, finishReason: string)

  datatype Data = Data(id: Option<string>, model: Option<string>, usage: Option<Usage>, choice: Option<Choice>) {
    function Content(): string {
      if choice.Some? then choice.value.content else ""
    }

    function FinishReason(): Option<string> {
      if choice.Some? && choice.value.finishReason != "" then Some(choice.value.finishReason) else None
    }
  }

  /** JSON decoding, `None` for a malformed payload. */
  type Decoder = string -> Option<Data>

  datatype Chunk = Chunk(id: string, model: string, delta: string, finishReason: Option<string>, usage: Option<Usage>,
                         raw: Option<Data>)

  datatype State = State(id: string, model: string, usage: Option<Usage>, finishReason: Option<string>, chunks: seq<Chunk>)

  function Latest<T>(now: Option<T>, before: Option<T>): Option<T> {
    if now.Some? then now else before
  }

  function Absorb(st: State, d: Data): State {
    var next := State(d.id.GetOr(st.id), d.model.GetOr(st.model), Latest(d.usage, st.usage),
                      Latest(d.FinishReason(), st.finishReason), st.chunks);
    if d.choice.Some? && (d.Content() != "" || next.finishReason.Some?) then
      next.(chunks := st.chunks + [Chunk(next.id, next.model, d.Content(), next.finishReason, next.usage, Some(d))])
    else next
  }

  datatype LineKind = Skip | Done | Payload(data: Data)

  function KindOf(line: string, decode: Decoder): LineKind {
    var text := Strip(line);
    if !("data:" <= text) then Skip
    else
      var payload := Strip(text[5..]);
      if payload == "[DONE]" then Done
      else match decode(payload)
           case None => Skip
           case Some(data) => Payload(data)
  }

  /** The payloads read from an event's lines: those before the first `[DONE]`. */
  function DataOfLines(lines: seq<string>, decode: Decoder): seq<Data> {
    if lines == [] then []
    else
      match KindOf(lines[0], decode)
      case Skip => DataOfLines(lines[1..], decode)
      case Done => []
      case Payload(data) => [data] + DataOfLines(lines[1..], decode)
  }

  function DataOf(events: seq<string>, decode: Decoder): seq<Data> {
    if events == [] then []
    else DataOfLines(Lines("", events[0]), decode) + DataOf(events[1..], decode)
  }

  function AbsorbAll(st: State, data: seq<Data>): State
    decreases |data|
  {
    if data == [] then st else AbsorbAll(Absorb(st, data[0]), data[1..])
  }

  function Closing(st: State): seq<Chunk> {
    if st.usage.Some? && st.finishReason.Some? then [Chunk(st.id, st.model, "", st.finishReason, st.usage, None)] else []
  }

  /** The chunks a whole response text stands for. */
  function ChunksOf(model: string, text: string, decode: Decoder): seq<Chunk> {
    var end := AbsorbAll(State("", model, None, None, []), DataOf(Split(text).events, decode));
    end.chunks + Closing(end)
  }

  lemma {:induction false} AbsorbConcat(st: State, a: seq<Data>, b: seq<Data>)
    ensures AbsorbAll(st, a + b) == AbsorbAll(AbsorbAll(st, a), b)
    decreases |a|
  {
    if a == [] {
      assert a + b == b;
    } else {
      assert (a + b)[1..] == a[1..] + b;
      AbsorbConcat(Absorb(st, a[0]), a[1..], b);
    }
  }

  lemma {:induction false} DataConcat(a: seq<string>, b: seq<string>, decode: Decoder)
    ensures DataOf(a + b, decode) == DataOf(a, decode) + DataOf(b, decode)
    decreases |a|
  {
    if a == [] {
      assert a + b == b;
    } else {
      assert (a + b)[1..] == a[1..] + b;
      DataConcat(a[1..], b, decode);
    }
  }

  /** The loop over the lines of one event. */
  method ReadEvent(st: State, event: string, decode: Decoder) returns (end: State)
    ensures end == AbsorbAll(st, DataOfLines(Lines("", event), decode))
  {
    var id, model, usage, finishReason, chunks := st.id, st.model, st.usage, st.finishReason, st.chunks;
    var lines := Lines("", event);
    for i := 0 to |lines|
      invariant AbsorbAll(State(id, model, usage, finishReason, chunks), DataOfLines(lines[i..], decode))
             == AbsorbAll(st, DataOfLines(lines, decode))
    {
      assert lines[i..][0] == lines[i] && lines[i..][1..] == lines[i + 1..];
      var line := Strip(lines[i]);
      if line == "" || !("data:" <= line) {
        continue;
      }
      var payload := Strip(line[5..]);
      if payload == "[DONE]" {
        break;
      }
      var decoded := decode(payload);
      if decoded.None? {
        continue;
      }
      ghost var before := State(id, model, usage, finishReason, chunks);
      var data := decoded.value;
      id := data.id.GetOr(id);
      model := data.model.GetOr(model);
      if data.usage.Some? {
        usage := data.usage;
      }
      if data.choice.Some? {
        var content := data.choice.value.content;
        if data.choice.value.finishReason != "" {
          finishReason := Some(data.choice.value.finishReason);
        }
        if content != "" || finishReason.Some? {
          chunks := chunks + [Chunk(id, model, content, finishReason, usage, Some(data))];
        }
      }
      assert State(id, model, usage, finishReason, chunks) == Absorb(before, data);
      assert ([data] + DataOfLines(lines[i + 1..], decode))[1..] == DataOfLines(lines[i + 1..], decode);
    }
    end := State(id, model, usage, finishReason, chunks);
  }

  /** The streaming loop: whatever the fragments, it yields the chunks of the whole text. */
  method StreamChat(model: string, fragments: seq<string>, decode: Decoder) returns (chunks: seq<Chunk>)
    ensures chunks == ChunksOf(model, Flatten(fragments), decode)
  {
    var st := State("", model, None, None, []);
    var buffer := "";
    for i := 0 to |fragments|
      invariant buffer == Fed(fragments[..i]).rest
      invariant st == AbsorbAll(State("", model, None, None, []), DataOf(Fed(fragments[..i]).events, decode))
    {
      assert fragments[..i + 1][..i] == fragments[..i];
      buffer := buffer + fragments[i];
      var next, rest := DrainBuffer(st, buffer, decode);
      DataConcat(Fed(fragments[..i]).events, Split(buffer).events, decode);
      AbsorbConcat(State("", model, None, None, []), DataOf(Fed(fragments[..i]).events, decode), DataOf(Split(buffer).events, decode));
      st, buffer := next, rest;
    }
    assert fragments[..|fragments|] == fragments;
    FragmentationIndependence(fragments);
    chunks := st.chunks;
    if st.usage.Some? && st.finishReason.Some? {
      chunks := chunks + [Chunk(st.id, st.model, "", st.finishReason, st.usage, None)];
    } else {
      assert chunks + [] == chunks;
    }
  }

  /** The inner loop: cut complete events off the buffer until none is left. */
  method DrainBuffer(st: State, text: string, decode: Decoder) returns (end: State, buffer: string)
    ensures buffer == Split(text).rest
    ensures end == AbsorbAll(st, DataOf(Split(text).events, decode))
  {
    end, buffer := st, text;
    var at := FirstSep(buffer, 0);
    while at.Some?
      invariant at == FirstSep(buffer, 0)
      invariant Split(buffer).rest == Split(text).rest
      invariant AbsorbAll(end, DataOf(Split(buffer).events, decode)) == AbsorbAll(st, DataOf(Split(text).events, decode))
      decreases |buffer|
    {
      var event := buffer[..at.value];
      ghost var before, tail := end, Split(buffer[at.value + 2..]);
      assert ([event] + tail.events)[1..] == tail.events;
      end := ReadEvent(end, event, decode);
      AbsorbConcat(before, DataOfLines(Lines("", event), decode), DataOf(tail.events, decode));
      buffer := buffer[at.value + 2..];
      at := FirstSep(buffer, 0);
    }
  }

  // ---------------------------------------------------------------------------
  // Nothing read is lost
  // ---------------------------------------------------------------------------

  function Deltas(chunks: seq<Chunk>): string {
    if chunks == [] then "" else Deltas(chunks[..|chunks| - 1]) + chunks[|chunks| - 1].delta
  }

  function Contents(data: seq<Data>): string {
    if data == [] then "" else data[0].Content() + Contents(data[1..])
  }

  function LatestUsage(data: seq<Data>): Option<Usage> {
    if data == [] then None else Latest(data[|data| - 1].usage, LatestUsage(data[..|data| - 1]))
  }

  function LatestFinish(data: seq<Data>): Option<string> {
    if data == [] then None else Latest(data[|data| - 1].FinishReason(), LatestFinish(data[..|data| - 1]))
  }

  lemma DeltasSnoc(chunks: seq<Chunk>, c: Chunk)
    ensures Deltas(chunks + [c]) == Deltas(chunks) + c.delta
  {
    assert (chunks + [c])[..|chunks|] == chunks;
  }

  lemma AbsorbOne(st: State, d: Data)
    ensures Deltas(Absorb(st, d).chunks) == Deltas(st.chunks) + d.Content()
  {
    var now := Absorb(st, d).chunks;
    if now == st.chunks {
      assert Deltas(st.chunks) + "" == Deltas(st.chunks);
    } else {
      DeltasSnoc(st.chunks, now[|st.chunks|]);
    }
  }

  lemma {:induction false} AbsorbKeepsContent(st: State, data: seq<Data>)
    ensures Deltas(AbsorbAll(st, data).chunks) == Deltas(st.chunks) + Contents(data)
    decreases |data|
  {
    var before := Deltas(st.chunks);
    if data == [] {
      assert before + "" == before;
    } else {
      AbsorbOne(st, data[0]);
      AbsorbKeepsContent(Absorb(st, data[0]), data[1..]);
      assert before + data[0].Content() + Contents(data[1..]) == before + (data[0].Content() + Contents(data[1..]));
    }
  }

  lemma {:induction false} AbsorbKeepsLatest(st: State, data: seq<Data>)
    ensures AbsorbAll(st, data).usage == Latest(LatestUsage(data), st.usage)
    ensures AbsorbAll(st, data).finishReason == Latest(LatestFinish(data), st.finishReason)
    decreases |data|
  {
    if data != [] {
      var front, last := data[..|data| - 1], data[|data| - 1];
      AbsorbKeepsLatest(st, front);
      assert data == front + [last];
      AbsorbConcat(st, front, [last]);
      assert [last][1..] == [];
    }
  }

  /** The text yielded is the text of every payload read, and the last chunk carries the latest totals. */
  lemma StreamKeepsWhatItReads(model: string, text: string, decode: Decoder)
    ensures var chunks, data := ChunksOf(model, text, decode), DataOf(Split(text).events, decode);
            && Deltas(chunks) == Contents(data)
            && (LatestUsage(data).Some? && LatestFinish(data).Some? ==>
                  && chunks != []
                  && chunks[|chunks| - 1].usage == LatestUsage(data)
                  && chunks[|chunks| - 1].finishReason == LatestFinish(data))
  {
    var st := State("", model, None, None, []);
    var data := DataOf(Split(text).events, decode);
    var end := AbsorbAll(st, data);
    AbsorbKeepsContent(st, data);
    AbsorbKeepsLatest(st, data);
    assert "" + Contents(data) == Contents(data);
    if Closing(end) == [] {
      assert end.chunks + [] == end.chunks;
    } else {
      var all := end.chunks + Closing(end);
      assert all[..|all| - 1] == end.chunks;
      assert Deltas(end.chunks) + "" == Deltas(end.chunks);
    }
  }

  // ---------------------------------------------------------------------------
  // What is not read
  // ---------------------------------------------------------------------------

  /** Every payload of some lines, end markers disregarded. */
  function AllOfLines(lines: seq<string>, decode: Decoder): seq<Data> {
    if lines == [] then []
    else (match KindOf(lines[0], decode) case Payload(data) => [data] case _ => []) + AllOfLines(lines[1..], decode)
  }

  /** The payloads behind the first end marker. */
  function UnreadOfLines(lines: seq<string>, decode: Decoder): seq<Data> {
    if lines == [] then []
    else if KindOf(lines[0], decode).Done? then AllOfLines(lines[1..], decode)
    else UnreadOfLines(lines[1..], decode)
  }

  function AllOf(events: seq<string>, decode: Decoder): seq<Data> {
    if events == [] then [] else AllOfLines(Lines("", events[0]), decode) + AllOf(events[1..], decode)
  }

  function UnreadOf(events: seq<string>, decode: Decoder): seq<Data> {
    if events == [] then [] else UnreadOfLines(Lines("", events[0]), decode) + UnreadOf(events[1..], decode)
  }

  /** Every payload of a text, that of its unterminated tail included. */
  function AllData(text: string, decode: Decoder): seq<Data> {
    AllOf(Split(text).events, decode) + AllOfLines(Lines("", Split(text).rest), decode)
  }

  /** The payloads the reader passes over: behind an event's end marker, or in the tail that no blank line ends. */
  function UnreadData(text: string, decode: Decoder): seq<Data> {
    UnreadOf(Split(text).events, decode) + AllOfLines(Lines("", Split(text).rest), decode)
  }

  lemma {:induction false} ContentsConcat(a: seq<Data>, b: seq<Data>)
    ensures Contents(a + b) == Contents(a) + Contents(b)
    decreases |a|
  {
    if a == [] {
      assert a + b == b && "" + Contents(b) == Contents(b);
    } else {
      assert (a + b)[1..] == a[1..] + b;
      ContentsConcat(a[1..], b);
      assert a[0].Content() + (Contents(a[1..]) + Contents(b)) == (a[0].Content() + Contents(a[1..])) + Contents(b);
    }
  }

  /** An event's payloads are those read followed by those behind its end marker. */
  lemma {:induction false} LinesSplit(lines: seq<string>, decode: Decoder)
    ensures AllOfLines(lines, decode) == DataOfLines(lines, decode) + UnreadOfLines(lines, decode)
  {
    if lines != [] {
      LinesSplit(lines[1..], decode);
      var read, unread := DataOfLines(lines[1..], decode), UnreadOfLines(lines[1..], decode);
      match KindOf(lines[0], decode)
      case Payload(data) => assert [data] + (read + unread) == ([data] + read) + unread;
      case Skip => assert [] + (read + unread) == read + unread;
      case Done => assert [] + AllOfLines(lines[1..], decode) == AllOfLines(lines[1..], decode);
    }
  }

  /** Nothing of `all` is missing from `read` exactly if `unread` is empty text. */
  ghost predicate Partitions(all: string, read: string, unread: string) {
    |all| == |read| + |unread| && (unread == "" ==> all == read)
  }

  lemma PartitionsConcat(a: string, r: string, u: string, a': string, r': string, u': string)
    requires Partitions(a, r, u) && Partitions(a', r', u')
    ensures Partitions(a + a', r + r', u + u')
  {}

  lemma LinesPartition(lines: seq<string>, decode: Decoder)
    ensures Partitions(Contents(AllOfLines(lines, decode)), Contents(DataOfLines(lines, decode)), Contents(UnreadOfLines(lines, decode)))
  {
    var read, unread := DataOfLines(lines, decode), UnreadOfLines(lines, decode);
    LinesSplit(lines, decode);
    ContentsConcat(read, unread);
    assert Contents(read) + "" == Contents(read);
  }

  lemma {:induction false} EventsPartition(events: seq<string>, decode: Decoder)
    ensures Partitions(Contents(AllOf(events, decode)), Contents(DataOf(events, decode)), Contents(UnreadOf(events, decode)))
  {
    if events != [] {
      var lines, rest := Lines("", events[0]), events[1..];
      var a, r, u := AllOfLines(lines, decode), DataOfLines(lines, decode), UnreadOfLines(lines, decode);
      var a', r', u' := AllOf(rest, decode), DataOf(rest, decode), UnreadOf(rest, decode);
      LinesPartition(lines, decode);
      EventsPartition(rest, decode);
      PartitionsConcat(Contents(a), Contents(r), Contents(u), Contents(a'), Contents(r'), Contents(u'));
      ContentsConcat(a, a');
      ContentsConcat(r, r');
      ContentsConcat(u, u');
      assert AllOf(events, decode) == a + a' && DataOf(events, decode) == r + r' && UnreadOf(events, decode) == u + u';
    }
  }

  /**
   The text yielded is the text of every payload in the response exactly if the payloads passed over, behind
   an end marker or in an unterminated tail, carry none.
   */
  lemma StreamLosesNothing(model: string, text: string, decode: Decoder)
    ensures Deltas(ChunksOf(model, text, decode)) == Contents(AllData(text, decode)) <==> Contents(UnreadData(text, decode)) == ""
  {
    var events, tail := Split(text).events, AllOfLines(Lines("", Split(text).rest), decode);
    StreamKeepsWhatItReads(model, text, decode);
    EventsPartition(events, decode);
    ContentsConcat(AllOf(events, decode), tail);
    ContentsConcat(UnreadOf(events, decode), tail);
    assert Contents(tail) == "" ==> Contents(AllOf(events, decode)) + Contents(tail) == Contents(AllOf(events, decode));
  }
}

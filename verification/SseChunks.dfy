/** Exactly which chunks a provider's stream yields, told from the payloads read. */
module SseChunks {
  import opened Common
  import opened SseStream

  function IdOf(d: Data): Option<string> { d.id }

  function ModelOf(d: Data): Option<string> { d.model }

  function UsageOf(d: Data): Option<Usage> { d.usage }

  /** A finish reason that is not empty. */
  function FinishOf(d: Data): Option<string> {
    if d.choice.Some? && d.choice.value.finishReason != "" then Some(d.choice.value.finishReason) else None
  }

  /** `v` is what the last payload that has the field says of it. */
  ghost predicate IsNewest<T(!new)>(data: seq<Data>, field: Data -> Option<T>, v: Option<T>) {
    match v
    case None => forall i :: 0 <= i < |data| ==> field(data[i]) == None
    case Some(_) => exists i :: NewestAt(data, field, i) && field(data[i]) == v
  }

  ghost predicate NewestAt<T(!new)>(data: seq<Data>, field: Data -> Option<T>, i: int) {
    0 <= i < |data| && field(data[i]).Some? && forall j :: i < j < |data| ==> field(data[j]) == None
  }

  /** The fold's fields after some payloads. */
  ghost predicate Holds(model: string, data: seq<Data>, st: State) {
    && (exists id :: IsNewest(data, IdOf, id) && st.id == id.GetOr(""))
    && (exists m :: IsNewest(data, ModelOf, m) && st.model == m.GetOr(model))
    && IsNewest(data, UsageOf, st.usage) && IsNewest(data, FinishOf, st.finishReason)
  }

  lemma NewestSnoc<T(!new)>(data: seq<Data>, d: Data, field: Data -> Option<T>, v: Option<T>)
    requires IsNewest(data, field, v)
    ensures IsNewest(data + [d], field, if field(d).Some? then field(d) else v)
  {
    var all := data + [d];
    if field(d).Some? {
      assert all[|data|] == d && NewestAt(all, field, |data|);
    } else if v.Some? {
      var i :| NewestAt(data, field, i) && field(data[i]) == v;
      assert all[i] == data[i] && NewestAt(all, field, i);
    }
  }

  lemma AbsorbFields(st: State, d: Data)
    ensures var next := Absorb(st, d);
            && next.id == IdOf(d).GetOr(st.id) && next.model == ModelOf(d).GetOr(st.model)
            && next.usage == (if UsageOf(d).Some? then UsageOf(d) else st.usage)
            && next.finishReason == (if FinishOf(d).Some? then FinishOf(d) else st.finishReason)
  {}

  lemma HoldsSnoc(model: string, data: seq<Data>, st: State, d: Data)
    requires Holds(model, data, st)
    ensures Holds(model, data + [d], Absorb(st, d))
  {
    AbsorbFields(st, d);
    var id :| IsNewest(data, IdOf, id) && st.id == id.GetOr("");
    var m :| IsNewest(data, ModelOf, m) && st.model == m.GetOr(model);
    NewestSnoc(data, d, IdOf, id);
    NewestSnoc(data, d, ModelOf, m);
    NewestSnoc(data, d, UsageOf, st.usage);
    NewestSnoc(data, d, FinishOf, st.finishReason);
  }

  function Start(model: string): State {
    State("", model, None, None, [])
  }

  lemma AbsorbSnoc(st: State, data: seq<Data>, d: Data)
    ensures AbsorbAll(st, data + [d]) == Absorb(AbsorbAll(st, data), d)
  {
    AbsorbConcat(st, data, [d]);
    assert [d][1..] == [];
  }

  lemma {:induction false} FoldHolds(model: string, data: seq<Data>)
    ensures Holds(model, data, AbsorbAll(Start(model), data))
  {
    if data == [] {
      assert IsNewest<string>(data, IdOf, None) && IsNewest<string>(data, ModelOf, None);
    } else {
      var front, last := data[..|data| - 1], data[|data| - 1];
      assert data == front + [last];
      FoldHolds(model, front);
      AbsorbSnoc(Start(model), front, last);
      HoldsSnoc(model, front, AbsorbAll(Start(model), front), last);
    }
  }

  // ---------------------------------------------------------------------------
  // Which payloads yield, and what
  // ---------------------------------------------------------------------------

  /** A payload yields a chunk if it has a choice that says something, or if the stream has finished by then. */
  ghost predicate Yields(data: seq<Data>, k: nat)
    requires k < |data|
  {
    && data[k].choice.Some?
    && (data[k].choice.value.content != "" || exists j :: 0 <= j <= k && FinishOf(data[j]).Some?)
  }

  /** That chunk: the payload's own text, and the newest of everything else up to it. */
  ghost predicate IsChunkOf(model: string, data: seq<Data>, k: nat, c: Chunk)
    requires k < |data| && data[k].choice.Some?
  {
    var seen := data[..k + 1];
    && c.delta == data[k].choice.value.content && c.raw == Some(data[k])
    && (exists id :: IsNewest(seen, IdOf, id) && c.id == id.GetOr(""))
    && (exists m :: IsNewest(seen, ModelOf, m) && c.model == m.GetOr(model))
    && IsNewest(seen, UsageOf, c.usage) && IsNewest(seen, FinishOf, c.finishReason)
  }

  /** The chunks are those of the payloads `ks`, which are the ones that yield, in order. */
  ghost predicate Exactly(model: string, data: seq<Data>, ks: seq<nat>, chunks: seq<Chunk>) {
    && |ks| == |chunks|
    && (forall i, j :: 0 <= i < j < |ks| ==> ks[i] < ks[j])
    && (forall i :: 0 <= i < |ks| ==> ks[i] < |data| && Yields(data, ks[i]) && IsChunkOf(model, data, ks[i], chunks[i]))
    && (forall k: nat :: k < |data| && Yields(data, k) ==> k in ks)
  }

  lemma FinishedBy<T>(data: seq<Data>, v: Option<string>)
    requires IsNewest(data, FinishOf, v)
    ensures v.Some? <==> exists j :: 0 <= j < |data| && FinishOf(data[j]).Some?
  {}

  lemma YieldsSnoc(model: string, data: seq<Data>, d: Data, k: nat, c: Chunk)
    requires k < |data|
    ensures Yields(data + [d], k) <==> Yields(data, k)
    ensures data[k].choice.Some? ==> (IsChunkOf(model, data + [d], k, c) <==> IsChunkOf(model, data, k, c))
  {
    assert (data + [d])[..k + 1] == data[..k + 1];
    assert forall j :: 0 <= j <= k ==> (data + [d])[j] == data[j];
  }

  /** Whether the next payload yields, and that the fold then appends its chunk. */
  lemma NextChunk(model: string, data: seq<Data>, d: Data)
    ensures var all, before, after := data + [d], AbsorbAll(Start(model), data), AbsorbAll(Start(model), data + [d]);
            if Yields(all, |data|) then
              |after.chunks| == |before.chunks| + 1 && after.chunks[..|before.chunks|] == before.chunks
              && IsChunkOf(model, all, |data|, after.chunks[|before.chunks|])
            else after.chunks == before.chunks
  {
    var all, after := data + [d], AbsorbAll(Start(model), data + [d]);
    AbsorbSnoc(Start(model), data, d);
    FoldHolds(model, all);
    assert all[..|data| + 1] == all && all[|data|] == d;
    FinishedBy<string>(all, after.finishReason);
  }

  lemma ExactlyStays(model: string, data: seq<Data>, d: Data, ks: seq<nat>, chunks: seq<Chunk>)
    requires Exactly(model, data, ks, chunks)
    ensures forall i :: 0 <= i < |ks| ==> Yields(data + [d], ks[i]) && IsChunkOf(model, data + [d], ks[i], chunks[i])
    ensures forall k: nat :: k < |data| && Yields(data + [d], k) ==> k in ks
  {
    forall i | 0 <= i < |ks|
      ensures Yields(data + [d], ks[i]) && IsChunkOf(model, data + [d], ks[i], chunks[i])
    {
      YieldsSnoc(model, data, d, ks[i], chunks[i]);
    }
    forall k: nat | k < |data| && Yields(data + [d], k)
      ensures k in ks
    {
      YieldsSnoc(model, data, d, k, Chunk("", "", "", None, None, None));
    }
  }

  lemma ExactlyWithout(model: string, data: seq<Data>, d: Data, ks: seq<nat>, chunks: seq<Chunk>)
    requires Exactly(model, data, ks, chunks) && !Yields(data + [d], |data|)
    ensures Exactly(model, data + [d], ks, chunks)
  {
    ExactlyStays(model, data, d, ks, chunks);
  }

  lemma ExactlyWith(model: string, data: seq<Data>, d: Data, ks: seq<nat>, chunks: seq<Chunk>, c: Chunk)
    requires Exactly(model, data, ks, chunks) && Yields(data + [d], |data|) && IsChunkOf(model, data + [d], |data|, c)
    ensures Exactly(model, data + [d], ks + [|data|], chunks + [c])
  {
    ExactlyStays(model, data, d, ks, chunks);
  }

  lemma {:induction false} FoldYieldsExactly(model: string, data: seq<Data>) returns (ks: seq<nat>)
    ensures Exactly(model, data, ks, AbsorbAll(Start(model), data).chunks)
  {
    ks := [];
    if data != [] {
      var front, last := data[..|data| - 1], data[|data| - 1];
      assert data == front + [last];
      ks := FoldYieldsExactly(model, front);
      var before, after := AbsorbAll(Start(model), front).chunks, AbsorbAll(Start(model), data).chunks;
      NextChunk(model, front, last);
      if Yields(data, |front|) {
        ExactlyWith(model, front, last, ks, before, after[|before|]);
        assert after == before + [after[|before|]];
        ks := ks + [|front|];
      } else {
        ExactlyWithout(model, front, last, ks, before);
      }
    }
  }

  /** The chunk after the last payload, for a stream that has finished and told its usage. */
  ghost predicate IsClosing(model: string, data: seq<Data>, c: Chunk) {
    && c.delta == "" && c.raw == None
    && (exists id :: IsNewest(data, IdOf, id) && c.id == id.GetOr(""))
    && (exists m :: IsNewest(data, ModelOf, m) && c.model == m.GetOr(model))
    && IsNewest(data, UsageOf, c.usage) && IsNewest(data, FinishOf, c.finishReason)
    && c.usage.Some? && c.finishReason.Some?
  }

  ghost predicate Told<T(!new)>(data: seq<Data>, field: Data -> Option<T>) {
    exists i :: 0 <= i < |data| && field(data[i]).Some?
  }

  lemma NewestTells<T(!new)>(data: seq<Data>, field: Data -> Option<T>, v: Option<T>)
    requires IsNewest(data, field, v)
    ensures v.Some? <==> Told(data, field)
  {}

  /**
   The chunks of a response are those of the payloads that yield, in order and with the right fields, and, exactly
   if some payload told the usage and some payload a finish reason, one closing chunk with the newest of each.
   */
  lemma ChunksAreExact(model: string, text: string, decode: Decoder) returns (ks: seq<nat>, yielded: seq<Chunk>, closing: seq<Chunk>)
    ensures var data := DataOf(Split(text).events, decode);
            && ChunksOf(model, text, decode) == yielded + closing
            && Exactly(model, data, ks, yielded)
            && |closing| == (if Told(data, UsageOf) && Told(data, FinishOf) then 1 else 0)
            && (closing != [] ==> IsClosing(model, data, closing[0]))
  {
    var data := DataOf(Split(text).events, decode);
    var end := AbsorbAll(Start(model), data);
    ks := FoldYieldsExactly(model, data);
    yielded, closing := end.chunks, Closing(end);
    FoldHolds(model, data);
    NewestTells(data, UsageOf, end.usage);
    NewestTells(data, FinishOf, end.finishReason);
  }
}

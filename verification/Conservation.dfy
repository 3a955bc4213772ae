/** What a lone consumer conserves over every run of `Consumer.Consumed`. */
module Conservation {
  import opened Common
  import opened EventLog
  import opened Consumer

  /** A verdict says what the handler and the dead-letter topic really saw. */
  lemma VerdictIsEarned(s: Subscription, rec: Message, o: Oracle)
    requires s.maxRetries >= 1
    ensures var v := VerdictFor(s, rec, o);
            && (v.Handled? <==> s.parse(rec.value).Ok? && exists n :: 1 <= n <= s.maxRetries && o.AttemptError(n) == None)
            && (v.Handled? ==> 1 <= v.calls <= s.maxRetries && o.AttemptError(v.calls) == None
                               && forall k :: 1 <= k < v.calls ==> o.AttemptError(k).Some?)
            && (!v.Handled? ==> v.calls == if s.parse(rec.value).Err? then 0 else s.maxRetries)
            && (v.DlqFailed? <==> !v.Handled? && o.dlqFails)
            && (v.CommitFailed? <==> !v.Handled? && !o.dlqFails && o.lastCommitFails)
            && (v.Letters() != [] ==> var letter := v.Letters()[0];
                                      letter.key == rec.key.GetOr("") && letter.value == rec.value && rec.headers <= letter.headers)
  {
    var r := o.FirstSuccess(1, s.maxRetries);
    assert forall n :: 1 <= n <= s.maxRetries && o.AttemptError(n) == None ==> r.Some?;
  }

  /** An entry of the ledger, read without the oracle: calls within the budget, dead letters faithful copies. */
  ghost predicate Earned(s: Subscription, e: Entry) {
    var rec, v := e.record, e.verdict;
    && (v.Handled? ==> s.parse(rec.value).Ok? && 1 <= v.calls <= s.maxRetries)
    && (!v.Handled? ==> v.calls == if s.parse(rec.value).Err? then 0 else s.maxRetries)
    && (v.DeadLettered? || v.CommitFailed? ==>
          v.letter.value == rec.value && v.letter.key == rec.key.GetOr("") && rec.headers <= v.letter.headers)
  }

  /** Every delivery of a run is accounted for truthfully. */
  lemma {:induction false} LedgerIsEarned(bus: Bus, s: Subscription, turns: seq<Turn>, e: Entry)
    requires s.maxRetries >= 1 && e in Consumed(bus, s, turns).ledger
    ensures Earned(s, e)
    decreases |turns|
  {
    var first := TurnEntry(bus, s, turns[0]);
    if first == Some(e) {
      VerdictIsEarned(s, e.record, turns[0].oracle);
    } else {
      LedgerIsEarned(AfterTurn(bus, s, turns[0]), s, turns[1..], e);
    }
  }

  /** Where the group will read next; a group that starts at "latest" has no place until it first polls. */
  function Place(bus: Bus, s: Subscription): Option<nat> {
    if s.topic in bus && s.group in bus[s.topic].committed then Some(bus[s.topic].committed[s.group])
    else if s.reset.Earliest? then Some(0)
    else None
  }

  function SettledCount(ledger: seq<Entry>): nat {
    if ledger == [] then 0
    else (if ledger[0].verdict.Settled() then 1 else 0) + SettledCount(ledger[1..])
  }

  function Letters(ledger: seq<Entry>): seq<Letter> {
    if ledger == [] then [] else ledger[0].verdict.Letters() + Letters(ledger[1..])
  }

  function Deposit(topic: string, records: seq<Message>, letters: seq<Letter>): seq<Message>
    decreases |letters|
  {
    if letters == [] then records
    else
      var l := letters[0];
      Deposit(topic, records + [Message(topic, |records|, Some(l.key), l.value, l.headers)], letters[1..])
  }

  /** The records delivered by `ledger` are those of `log` from `start` on, once each and in order. */
  ghost predicate InOrder(ledger: seq<Entry>, start: nat, log: seq<Message>) {
    && (ledger != [] ==> start + |ledger| <= |log|)
    && (forall i :: 0 <= i < |ledger| ==> ledger[i].record == log[start + i])
    && (forall i :: 0 <= i < |ledger| - 1 ==> ledger[i].verdict.Settled())
  }

  ghost predicate SourceIntact(before: TopicView, after: TopicView) {
    before.records <= after.records && after.OffsetsArePositions()
  }

  lemma {:induction false} ArrivalsKeepCursors(bus: Bus, topic: string, arrivals: seq<Arrival>, other: string)
    requires Look(bus, topic).OffsetsArePositions() && other != topic
    ensures var after := AfterArrivals(bus, topic, arrivals);
            && SourceIntact(Look(bus, topic), Look(after, topic))
            && Look(after, topic).committed == Look(bus, topic).committed
            && (topic in bus ==> topic in after)
            && (forall m :: m in Look(after, topic).records ==> m in Look(bus, topic).records || m.topic == topic)
            && Look(after, other) == Look(bus, other)
    decreases |arrivals|
  {
    if arrivals != [] {
      var a := arrivals[0];
      ArrivalsKeepCursors(AfterSend(bus, topic, a.key, a.value, a.headers), topic, arrivals[1..], other);
    }
  }

  ghost predicate OwnTopic(bus: Bus, topic: string) {
    Look(bus, topic).OffsetsArePositions() && forall m :: m in Look(bus, topic).records ==> m.topic == topic
  }

  /** What one turn of the loop does: `e` is its delivery, `after` the bus it leaves. */
  ghost predicate Effect(bus: Bus, s: Subscription, e: Option<Entry>, after: Bus) {
    var log, dlq := Look(after, s.topic), DlqName(s.topic);
    && SourceIntact(Look(bus, s.topic), log) && OwnTopic(after, s.topic)
    && (e.None? ==>
          && Look(after, dlq).records == Look(bus, dlq).records
          && (Place(bus, s).Some? ==> Place(after, s) == Place(bus, s))
          && (Place(bus, s).None? && Place(after, s).Some? ==> Place(after, s).value >= |Look(bus, s.topic).records|))
    && (e.Some? ==>
          var o, v := e.value.record.offset, e.value.verdict;
          && Look(after, dlq).records == Deposit(dlq, Look(bus, dlq).records, v.Letters())
          && Place(bus, s) == Some(o) && o < |log.records| && e.value.record == log.records[o]
          && Place(after, s) == Some(if v.Settled() then o + 1 else o))
  }

  lemma VerdictEffect(bus: Bus, s: Subscription, rec: Message, v: Verdict)
    requires OwnTopic(bus, s.topic) && s.topic in bus && rec in bus[s.topic].records
    requires s.group in bus[s.topic].committed && bus[s.topic].committed[s.group] == rec.offset
    ensures Effect(bus, s, Some(Entry(rec, v)), AfterVerdict(bus, s, rec, v))
  {
    assert |DlqName(s.topic)| != |s.topic|;
    if v.Letters() != [] {
      assert v.Letters() == [v.letter] && v.Letters()[1..] == [];
    }
  }

  lemma FetchEffect(bus: Bus, s: Subscription, turn: Turn)
    requires OwnTopic(bus, s.topic)
    ensures Effect(bus, s, None, Fetched(bus, s, turn))
    ensures var next, fetched := Delivered(bus, s, turn), Fetched(bus, s, turn);
            next.Some? ==>
              && s.topic in fetched && next.value in fetched[s.topic].records && s.group in fetched[s.topic].committed
              && fetched[s.topic].committed[s.group] == next.value.offset && Place(bus, s) == Some(next.value.offset)
  {
    assert |DlqName(s.topic)| != |s.topic|;
    ArrivalsKeepCursors(bus, s.topic, turn.arrivals, DlqName(s.topic));
  }

  lemma TurnEffect(bus: Bus, s: Subscription, turn: Turn)
    requires s.maxRetries >= 1 && OwnTopic(bus, s.topic)
    ensures Effect(bus, s, TurnEntry(bus, s, turn), AfterTurn(bus, s, turn))
  {
    FetchEffect(bus, s, turn);
    var next, fetched := Delivered(bus, s, turn), Fetched(bus, s, turn);
    if next.Some? {
      VerdictEffect(fetched, s, next.value, VerdictFor(s, next.value, turn.oracle));
    }
  }

  ghost predicate Conserved(bus: Bus, s: Subscription, start: nat, end: Bus, ledger: seq<Entry>) {
    var dlq := DlqName(s.topic);
    && SourceIntact(Look(bus, s.topic), Look(end, s.topic))
    && InOrder(ledger, start, Look(end, s.topic).records)
    && Place(end, s) == Some(start + SettledCount(ledger))
    && Look(end, dlq).records == Deposit(dlq, Look(bus, dlq).records, Letters(ledger))
  }

  lemma DepositConcat(topic: string, records: seq<Message>, a: seq<Letter>, b: seq<Letter>)
    requires |a| <= 1
    ensures Deposit(topic, records, a + b) == Deposit(topic, Deposit(topic, records, a), b)
  {
    if a == [] {
      assert a + b == b;
    } else {
      assert (a + b)[1..] == b && a[1..] == [];
    }
  }

  lemma DepositCons(topic: string, records: seq<Message>, e: Entry, ledger: seq<Entry>)
    ensures Deposit(topic, records, Letters([e] + ledger))
         == Deposit(topic, Deposit(topic, records, e.verdict.Letters()), Letters(ledger))
  {
    LedgerCons(e, ledger);
    DepositConcat(topic, records, e.verdict.Letters(), Letters(ledger));
  }

  lemma InOrderCons(e: Entry, ledger: seq<Entry>, start: nat, log: seq<Message>)
    requires start < |log| && e.record == log[start] && e.verdict.Settled() && InOrder(ledger, start + 1, log)
    ensures InOrder([e] + ledger, start, log)
  {
    var whole := [e] + ledger;
    forall i | 0 <= i < |whole|
      ensures whole[i].record == log[start + i] && (i < |whole| - 1 ==> whole[i].verdict.Settled())
    {
      if i > 0 {
        assert whole[i] == ledger[i - 1];
      }
    }
  }

  lemma IntactTrans(a: TopicView, b: TopicView, c: TopicView)
    requires SourceIntact(a, b) && SourceIntact(b, c)
    ensures SourceIntact(a, c)
  {}

  lemma LedgerCons(e: Entry, ledger: seq<Entry>)
    ensures SettledCount([e] + ledger) == (if e.verdict.Settled() then 1 else 0) + SettledCount(ledger)
    ensures Letters([e] + ledger) == e.verdict.Letters() + Letters(ledger)
  {
    assert ([e] + ledger)[1..] == ledger;
  }

  lemma PrependInOrder(bus: Bus, s: Subscription, e: Entry, after: Bus, end: Bus, ledger: seq<Entry>)
    requires Effect(bus, s, Some(e), after) && e.verdict.Settled()
    requires Conserved(after, s, e.record.offset + 1, end, ledger)
    ensures InOrder([e] + ledger, e.record.offset, Look(end, s.topic).records)
  {
    var o, log, longer := e.record.offset, Look(after, s.topic).records, Look(end, s.topic).records;
    assert log <= longer && o < |log| && e.record == log[o];
    InOrderCons(e, ledger, o, longer);
  }

  /** A delivery that settled, followed by a run that conserves. */
  lemma Prepend(bus: Bus, s: Subscription, e: Entry, after: Bus, end: Bus, ledger: seq<Entry>)
    requires Effect(bus, s, Some(e), after) && e.verdict.Settled()
    requires Conserved(after, s, e.record.offset + 1, end, ledger)
    ensures Conserved(bus, s, e.record.offset, end, [e] + ledger)
  {
    IntactTrans(Look(bus, s.topic), Look(after, s.topic), Look(end, s.topic));
    PrependInOrder(bus, s, e, after, end, ledger);
    DepositCons(DlqName(s.topic), Look(bus, DlqName(s.topic)).records, e, ledger);
    LedgerCons(e, ledger);
  }

  /** A delivery that ends the run: the cursor stays on the record. */
  lemma Stop(bus: Bus, s: Subscription, e: Entry, after: Bus)
    requires Effect(bus, s, Some(e), after) && !e.verdict.Settled()
    ensures Conserved(bus, s, e.record.offset, after, [e])
  {
    LedgerCons(e, []);
    assert [e] + [] == [e] && e.verdict.Letters() + [] == e.verdict.Letters();
  }

  lemma SkipEmptyTurn(bus: Bus, s: Subscription, after: Bus, start: nat, end: Bus, ledger: seq<Entry>)
    requires Effect(bus, s, None, after) && Conserved(after, s, start, end, ledger)
    ensures Conserved(bus, s, start, end, ledger)
  {
    IntactTrans(Look(bus, s.topic), Look(after, s.topic), Look(end, s.topic));
  }

  /** The run from a known place. */
  lemma {:induction false} ConservedFrom(bus: Bus, s: Subscription, turns: seq<Turn>, start: nat)
    requires s.maxRetries >= 1 && OwnTopic(bus, s.topic) && Place(bus, s) == Some(start)
    ensures var out := Consumed(bus, s, turns); Conserved(bus, s, start, out.bus, out.ledger)
    decreases |turns|, 1
  {
    if turns != [] {
      ConsumedUnfolds(bus, s, turns);
      TurnEffect(bus, s, turns[0]);
      var e, after := TurnEntry(bus, s, turns[0]), AfterTurn(bus, s, turns[0]);
      ConservedAfter(bus, s, turns, start, e, after);
    }
  }

  lemma {:induction false} ConservedAfter(bus: Bus, s: Subscription, turns: seq<Turn>, start: nat, e: Option<Entry>, after: Bus)
    requires s.maxRetries >= 1 && turns != [] && Place(bus, s) == Some(start) && Effect(bus, s, e, after)
    ensures var rest := Consumed(after, s, turns[1..]);
            match e
            case None => Conserved(bus, s, start, rest.bus, rest.ledger)
            case Some(x) => if x.verdict.Settled() then Conserved(bus, s, start, rest.bus, [x] + rest.ledger)
                            else Conserved(bus, s, start, after, [x])
    decreases |turns|, 0
  {
    var rest := Consumed(after, s, turns[1..]);
    if e.None? {
      ConservedFrom(after, s, turns[1..], start);
      SkipEmptyTurn(bus, s, after, start, rest.bus, rest.ledger);
    } else if e.value.verdict.Settled() {
      ConservedFrom(after, s, turns[1..], start + 1);
      Prepend(bus, s, e.value, after, rest.bus, rest.ledger);
    } else {
      Stop(bus, s, e.value, after);
    }
  }

  /**
   Conservation for one consumer: the records from its start up to its cursor have each been settled
   exactly once, in offset order; the cursor counts the successes and the dead letters; the dead-letter
   topic grew by exactly the letters of the ledger, in order; and the source topic only grew.
   A group that joins at "latest" never sees a record older than the run.
   */
  lemma {:induction false} ConsumerConserves(bus: Bus, s: Subscription, turns: seq<Turn>) returns (start: nat)
    requires s.maxRetries >= 1 && OwnTopic(bus, s.topic)
    ensures var out := Consumed(bus, s, turns);
            && (Place(bus, s).Some? ==> start == Place(bus, s).value)
            && (Place(bus, s).None? ==> start >= |Look(bus, s.topic).records|)
            && (Place(out.bus, s).None? ==> out.ledger == [])
            && (Place(out.bus, s).Some? ==> Conserved(bus, s, start, out.bus, out.ledger))
    decreases |turns|
  {
    start := |Look(bus, s.topic).records|;
    if Place(bus, s).Some? {
      start := Place(bus, s).value;
      ConservedFrom(bus, s, turns, start);
    } else if turns != [] {
      TurnEffect(bus, s, turns[0]);
      var after := AfterTurn(bus, s, turns[0]);
      start := ConsumerConserves(after, s, turns[1..]);
      var out := Consumed(after, s, turns[1..]);
      ConsumedUnfolds(bus, s, turns);
      if Place(out.bus, s).Some? {
        SkipEmptyTurn(bus, s, after, start, out.bus, out.ledger);
      }
    }
  }
}

/** Unread records are delivered: what the log, the cursors and the consume loop owe a group. */
module Delivery {
  import opened Common
  import opened EventLog
  import opened Consumer
  import opened Conservation

  // ---------------------------------------------------------------------------
  // The log and the cursors, field by field
  // ---------------------------------------------------------------------------

  ghost predicate Elsewhere(a: Bus, b: Bus, topic: string) {
    forall t :: t != topic ==> Look(b, t) == Look(a, t)
  }

  /** A send adds one record, just as it was given, after those already there, and moves no cursor. */
  lemma SendMeans(bus: Bus, topic: string, key: Option<string>, value: string, headers: seq<(string, string)>)
    ensures var log, after := Look(bus, topic).records, AfterSend(bus, topic, key, value, headers);
            && Elsewhere(bus, after, topic) && topic in after && after[topic].committed == Look(bus, topic).committed
            && |after[topic].records| == |log| + 1 && log <= after[topic].records
            && var m := after[topic].records[|log|];
               m.topic == topic && m.offset == |log| && m.key == key && m.value == value && m.headers == headers
  {}

  /** A commit sets one cursor of one topic to what it is given. */
  lemma CommitMeans(bus: Bus, topic: string, group: string, offset: nat)
    ensures var after := AfterCommit(bus, topic, group, offset);
            && Elsewhere(bus, after, topic) && topic in after && after[topic].records == Look(bus, topic).records
            && group in after[topic].committed && after[topic].committed[group] == offset
            && forall g :: g != group ==> (g in after[topic].committed <==> g in Look(bus, topic).committed)
                                          && (g in after[topic].committed ==> after[topic].committed[g] == Look(bus, topic).committed[g])
  {}

  /** Where a group reads on a topic that exists: its committed offset, or by its policy when it is new. */
  ghost predicate ReadsAt(v: TopicView, group: string, reset: Reset, at: nat) {
    if group in v.committed then at == v.committed[group]
    else match reset
         case Earliest => at == 0
         case Latest => at == |v.records|
  }

  /** A poll returns the record where the group reads, if there is one, and leaves the group reading there. */
  lemma PollMeans(bus: Bus, topic: string, group: string, reset: Reset, at: nat)
    requires topic in bus && ReadsAt(bus[topic], group, reset, at)
    ensures var next, after := Polled(bus, topic, group, reset), AfterPoll(bus, topic, group, reset);
            && (next.Some? <==> at < |bus[topic].records|)
            && (next.Some? ==> next.value == bus[topic].records[at])
            && topic in after && after[topic].records == bus[topic].records && Elsewhere(bus, after, topic)
            && after[topic].committed == bus[topic].committed[group := at]
  {}

  lemma PollOfNothing(bus: Bus, topic: string, group: string, reset: Reset)
    requires topic !in bus
    ensures Polled(bus, topic, group, reset) == None && AfterPoll(bus, topic, group, reset) == bus
  {}

  /** What producers sent stands at the end of the log, in order and just as it was given. */
  ghost predicate Arrived(before: seq<Message>, arrivals: seq<Arrival>, after: seq<Message>) {
    && |after| == |before| + |arrivals| && before <= after
    && forall i :: 0 <= i < |arrivals| ==> IsCopy(arrivals[i], after[|before| + i])
  }

  ghost predicate IsCopy(a: Arrival, m: Message) {
    m.key == a.key && m.value == a.value && m.headers == a.headers
  }

  lemma ArrivedCons(before: seq<Message>, first: Message, a: Arrival, arrivals: seq<Arrival>, after: seq<Message>)
    requires IsCopy(a, first) && Arrived(before + [first], arrivals, after)
    ensures Arrived(before, [a] + arrivals, after)
  {
    var all := [a] + arrivals;
    assert before <= before + [first] <= after;
    forall i | 0 <= i < |all|
      ensures IsCopy(all[i], after[|before| + i])
    {
      if i == 0 {
        assert after[|before|] == (before + [first])[|before|];
      } else {
        assert all[i] == arrivals[i - 1] && after[|before| + i] == after[|before + [first]| + (i - 1)];
      }
    }
  }

  lemma {:induction false} ArrivalsArrive(bus: Bus, topic: string, arrivals: seq<Arrival>)
    ensures var after := AfterArrivals(bus, topic, arrivals);
            && Arrived(Look(bus, topic).records, arrivals, Look(after, topic).records)
            && Look(after, topic).committed == Look(bus, topic).committed
            && (topic in after <==> topic in bus || arrivals != [])
    decreases |arrivals|
  {
    if arrivals != [] {
      var a := arrivals[0];
      var next := AfterSend(bus, topic, a.key, a.value, a.headers);
      var log := Look(bus, topic).records;
      ArrivalsArrive(next, topic, arrivals[1..]);
      ArrivedCons(log, Look(next, topic).records[|log|], a, arrivals[1..],
                  Look(AfterArrivals(bus, topic, arrivals), topic).records);
      assert arrivals == [a] + arrivals[1..];
    }
  }

  // ---------------------------------------------------------------------------
  // One turn
  // ---------------------------------------------------------------------------

  /**
   One turn of the consume loop delivers a record exactly if there is one where the group reads once the
   turn's arrivals are in the log, and it is that record, whatever the reset policy of an open group.
   */
  lemma TurnDelivers(bus: Bus, s: Subscription, turn: Turn, at: nat)
    requires s.maxRetries >= 1
    requires var v := Look(AfterArrivals(bus, s.topic, turn.arrivals), s.topic); ReadsAt(v, s.group, s.reset, at)
    ensures var log := Look(AfterArrivals(bus, s.topic, turn.arrivals), s.topic).records;
            && (TurnEntry(bus, s, turn).Some? <==> at < |log|)
            && (TurnEntry(bus, s, turn).Some? ==> TurnEntry(bus, s, turn).value.record == log[at])
  {
    var ready := AfterArrivals(bus, s.topic, turn.arrivals);
    ArrivalsArrive(bus, s.topic, turn.arrivals);
    if s.topic in ready {
      PollMeans(ready, s.topic, s.group, s.reset, at);
    } else {
      PollOfNothing(ready, s.topic, s.group, s.reset);
    }
  }

  /** A record at an open cursor is delivered, whatever arrives meanwhile and whatever the policy. */
  lemma UnreadIsDelivered(bus: Bus, s: Subscription, turn: Turn)
    requires s.maxRetries >= 1 && s.topic in bus && s.group in bus[s.topic].committed
    requires bus[s.topic].committed[s.group] < |bus[s.topic].records|
    ensures TurnEntry(bus, s, turn).Some?
    ensures TurnEntry(bus, s, turn).value.record == bus[s.topic].records[bus[s.topic].committed[s.group]]
  {
    ArrivalsArrive(bus, s.topic, turn.arrivals);
    TurnDelivers(bus, s, turn, bus[s.topic].committed[s.group]);
  }

  // ---------------------------------------------------------------------------
  // Runs
  // ---------------------------------------------------------------------------

  /** Nothing arrives during the run. */
  ghost predicate Quiet(turns: seq<Turn>) {
    forall i :: 0 <= i < |turns| ==> turns[i].arrivals == []
  }

  /** The group's cursor on its topic, opened or about to be opened at the first record. */
  ghost predicate CursorAt(bus: Bus, s: Subscription, at: nat) {
    if s.topic in bus && s.group in bus[s.topic].committed then at == bus[s.topic].committed[s.group]
    else s.reset == Earliest && at == 0
  }

  lemma QuietTurn(bus: Bus, s: Subscription, turn: Turn, start: nat)
    requires s.maxRetries >= 1 && OwnTopic(bus, s.topic) && CursorAt(bus, s, start) && turn.arrivals == []
    ensures var entry, log, after := TurnEntry(bus, s, turn), Look(bus, s.topic).records, AfterTurn(bus, s, turn);
            && (entry.Some? <==> start < |log|)
            && (entry.Some? ==> entry.value.record == log[start])
            && Look(after, s.topic).records == log && OwnTopic(after, s.topic)
            && CursorAt(after, s, if entry.Some? && entry.value.verdict.Settled() then start + 1 else start)
  {
    ArrivalsArrive(bus, s.topic, []);
    TurnDelivers(bus, s, turn, start);
    TurnEffect(bus, s, turn);
    TurnKeepsLog(bus, s, turn);
  }

  lemma TurnKeepsLog(bus: Bus, s: Subscription, turn: Turn)
    requires s.maxRetries >= 1 && turn.arrivals == []
    ensures Look(AfterTurn(bus, s, turn), s.topic).records == Look(bus, s.topic).records
  {
    assert |DlqName(s.topic)| != |s.topic|;
    if TurnEntry(bus, s, turn).Some? {
      var rec := TurnEntry(bus, s, turn).value.record;
      var v := TurnEntry(bus, s, turn).value.verdict;
      VerdictKeepsLog(Fetched(bus, s, turn), s, rec, v, s.topic);
    }
  }

  lemma VerdictKeepsLog(bus: Bus, s: Subscription, rec: Message, v: Verdict, topic: string)
    requires topic != DlqName(s.topic)
    ensures Look(AfterVerdict(bus, s, rec, v), topic).records == Look(bus, topic).records
  {}

  /** `turns` turns from `start` delivered the records of the log from there, until it ended. */
  ghost predicate Progressed(s: Subscription, log: seq<Message>, start: nat, turns: nat, out: Outcome)
    requires start <= |log|
  {
    var reached := Min(start + turns, |log|);
    && Look(out.bus, s.topic).records == log && CursorAt(out.bus, s, reached)
    && |out.ledger| == reached - start
    && forall i :: 0 <= i < |out.ledger| ==> out.ledger[i].record == log[start + i]
  }

  lemma ProgressCons(s: Subscription, log: seq<Message>, start: nat, turns: nat, e: Entry, rest: Outcome)
    requires start < |log| && e.record == log[start] && Progressed(s, log, start + 1, turns, rest)
    ensures Progressed(s, log, start, turns + 1, Continue([e], rest))
  {
    RecordsCons(e, rest.ledger, log, start);
  }

  /**
   Progress: turns without arrivals whose deliveries all settle move the cursor by one each until it
   meets the end of the log, delivering the records in between.
   */
  lemma {:induction false} SettledTurnsProgress(bus: Bus, s: Subscription, turns: seq<Turn>, start: nat)
    requires s.maxRetries >= 1 && OwnTopic(bus, s.topic) && CursorAt(bus, s, start)
    requires start <= |Look(bus, s.topic).records| && Quiet(turns) && !Halted(Consumed(bus, s, turns).ledger)
    ensures Progressed(s, Look(bus, s.topic).records, start, |turns|, Consumed(bus, s, turns))
    decreases |turns|
  {
    if turns != [] {
      var entry, after := TurnEntry(bus, s, turns[0]), AfterTurn(bus, s, turns[0]);
      assert turns[0].arrivals == [] && Quiet(turns[1..]);
      QuietTurn(bus, s, turns[0], start);
      ConsumedUnfolds(bus, s, turns);
      SettledFirst(bus, s, turns);
      if entry.Some? {
        SettledTurnsProgress(after, s, turns[1..], start + 1);
        ProgressCons(s, Look(bus, s.topic).records, start, |turns[1..]|, entry.value, Consumed(after, s, turns[1..]));
      } else {
        SettledTurnsProgress(after, s, turns[1..], start);
      }
    }
  }

  lemma SettledFirst(bus: Bus, s: Subscription, turns: seq<Turn>)
    requires s.maxRetries >= 1 && turns != [] && !Halted(Consumed(bus, s, turns).ledger)
    ensures TurnEntry(bus, s, turns[0]).Some? ==> TurnEntry(bus, s, turns[0]).value.verdict.Settled()
    ensures !Halted(Consumed(AfterTurn(bus, s, turns[0]), s, turns[1..]).ledger)
  {
    ConsumedUnfolds(bus, s, turns);
  }

  lemma RecordsCons(e: Entry, ledger: seq<Entry>, log: seq<Message>, start: nat)
    requires start + 1 + |ledger| <= |log| && e.record == log[start]
    requires forall i :: 0 <= i < |ledger| ==> ledger[i].record == log[start + 1 + i]
    ensures forall i :: 0 <= i < |[e] + ledger| ==> ([e] + ledger)[i].record == log[start + i]
  {
    forall i | 0 <= i < |[e] + ledger|
      ensures ([e] + ledger)[i].record == log[start + i]
    {
      assert i > 0 ==> ([e] + ledger)[i] == ledger[i - 1];
    }
  }

  /** The dead-letter topic and the commit after it work. */
  ghost predicate Working(turns: seq<Turn>) {
    forall i :: 0 <= i < |turns| ==> !turns[i].oracle.dlqFails && !turns[i].oracle.lastCommitFails
  }

  lemma {:induction false} WorkingRunsDoNotHalt(bus: Bus, s: Subscription, turns: seq<Turn>)
    requires s.maxRetries >= 1 && Working(turns)
    ensures !Halted(Consumed(bus, s, turns).ledger)
    decreases |turns|
  {
    if turns != [] {
      ConsumedUnfolds(bus, s, turns);
      assert !turns[0].oracle.dlqFails && !turns[0].oracle.lastCommitFails && Working(turns[1..]);
      WorkingRunsDoNotHalt(AfterTurn(bus, s, turns[0]), s, turns[1..]);
    }
  }

  /** So however its handler fails, a consumer whose dead-letter topic works reaches the end of a quiet log. */
  lemma ConsumerCatchesUp(bus: Bus, s: Subscription, turns: seq<Turn>, start: nat)
    requires s.maxRetries >= 1 && OwnTopic(bus, s.topic) && CursorAt(bus, s, start)
    requires start <= |Look(bus, s.topic).records| <= start + |turns| && Quiet(turns) && Working(turns)
    ensures CursorAt(Consumed(bus, s, turns).bus, s, |Look(bus, s.topic).records|)
  {
    WorkingRunsDoNotHalt(bus, s, turns);
    SettledTurnsProgress(bus, s, turns, start);
  }
}

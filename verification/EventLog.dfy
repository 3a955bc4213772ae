/**
 The in-memory event bus: append-only topics and one cursor per consumer group.

 `TopicView` and `Bus` are the values the objects stand for.  `Topic` and
 `InMemoryTransport` change their fields in place and are proved to realise the
 operations on those values.
 */
module EventLog {
  import opened Common

  /** A record; byte strings, which the bus only copies, are kept as text. */
  datatype Message = Message(topic: string, offset: nat, key: Option<string>, value: string, headers: seq<(string, string)>)

  datatype Reset = Earliest | Latest

  datatype TopicView = TopicView(records: seq<Message>, committed: map<string, nat>) {
    predicate OffsetsArePositions() {
      forall i :: 0 <= i < |records| ==> records[i].offset == i
    }

    function Append(m: Message): TopicView {
      this.(records := records + [m.(offset := |records|)])
    }

    /** The next-to-read offset of a group; a group seen for the first time starts by policy. */
    function Cursor(group: string, reset: Reset): nat {
      if group in committed then committed[group]
      else if reset.Earliest? then 0
      else |records|
    }

    function Open(group: string, reset: Reset): TopicView {
      this.(committed := committed[group := Cursor(group, reset)])
    }

    function Peek(group: string, reset: Reset): Option<Message> {
      var start := Cursor(group, reset);
      if start < |records| then Some(records[start]) else None
    }

    function Commit(group: string, offset: nat): TopicView {
      this.(committed := committed[group := offset])
    }
  }

  const EMPTY_TOPIC := TopicView([], map[])

  type Bus = map<string, TopicView>

  function Look(bus: Bus, topic: string): TopicView {
    if topic in bus then bus[topic] else EMPTY_TOPIC
  }

  function AfterSend(bus: Bus, topic: string, key: Option<string>, value: string, headers: seq<(string, string)>): Bus {
    bus[topic := Look(bus, topic).Append(Message(topic, 0, key, value, headers))]
  }

  function AfterCommit(bus: Bus, topic: string, group: string, offset: nat): Bus {
    bus[topic := Look(bus, topic).Commit(group, offset)]
  }

  /** Polling opens the group's cursor on an existing topic and moves nothing. */
  function AfterPoll(bus: Bus, topic: string, group: string, reset: Reset): Bus {
    if topic in bus then bus[topic := bus[topic].Open(group, reset)] else bus
  }

  function Polled(bus: Bus, topic: string, group: string, reset: Reset): Option<Message> {
    if topic in bus then bus[topic].Peek(group, reset) else None
  }

  class Topic {
    var records: seq<Message>
    var nextOffset: nat
    var committed: map<string, nat>

    ghost predicate Valid()
      reads this
    {
      nextOffset == |records| && View().OffsetsArePositions()
    }

    ghost function View(): TopicView
      reads this
    {
      TopicView(records, committed)
    }

    constructor ()
      ensures Valid() && View() == EMPTY_TOPIC
    {
      records, nextOffset, committed := [], 0, map[];
    }

    method Append(m: Message)
      requires Valid()
      modifies this
      ensures Valid() && View() == old(View()).Append(m)
    {
      records := records + [m.(offset := nextOffset)];
      nextOffset := nextOffset + 1;
    }

    method NextFor(group: string, reset: Reset) returns (next: Option<Message>)
      requires Valid()
      modifies this
      ensures Valid() && View() == old(View()).Open(group, reset)
      ensures next == old(View()).Peek(group, reset)
      ensures next.Some? ==> next.value in records && next.value.offset == committed[group]
    {
      var start;
      if group in committed {
        start := committed[group];
        assert committed == committed[group := start];
      } else {
        start := if reset.Earliest? then 0 else nextOffset;
        committed := committed[group := start];
      }
      if start >= |records| {
        return None;
      }
      return Some(records[start]);
    }

    method Commit(group: string, offset: nat)
      requires Valid()
      modifies this
      ensures Valid() && View() == old(View()).Commit(group, offset)
    {
      committed := committed[group := offset];
    }
  }

  class InMemoryTransport {
    var topics: map<string, Topic>

    ghost predicate Valid()
      reads this, topics.Values
    {
      && (forall n :: n in topics ==> topics[n].Valid())
      && (forall m, n :: m in topics && n in topics && m != n ==> topics[m] != topics[n])
    }

    ghost function View(): Bus
      reads this, topics.Values
    {
      map n | n in topics :: topics[n].View()
    }

    constructor ()
      ensures Valid() && View() == map[]
    {
      topics := map[];
    }

    /** `setdefault`: the topic object, created empty on first use. */
    method TopicFor(topic: string) returns (t: Topic)
      requires Valid()
      modifies this
      ensures Valid() && topic in topics && topics[topic] == t
      ensures View() == old(View())[topic := Look(old(View()), topic)]
      ensures fresh(topics.Values - old(topics.Values)) && (fresh(t) || t in old(topics.Values))
    {
      if topic in topics {
        t := topics[topic];
      } else {
        t := new Topic();
        topics := topics[topic := t];
      }
      assert View() == old(View())[topic := Look(old(View()), topic)];
    }

    /** Changing one topic object changes one entry of the bus. */
    twostate lemma OnlyTopicChanged(topic: string)
      requires old(Valid()) && topics == old(topics) && topic in topics && topics[topic].Valid()
      requires forall n :: n in topics && n != topic ==> unchanged(topics[n])
      ensures Valid() && View() == old(View())[topic := topics[topic].View()]
    {}

    method Send(topic: string, key: Option<string>, value: string, headers: seq<(string, string)>)
      requires Valid()
      modifies this, topics.Values
      ensures Valid() && View() == AfterSend(old(View()), topic, key, value, headers)
      ensures fresh(topics.Values - old(topics.Values))
    {
      var t := TopicFor(topic);
      assert View()[topic] == t.View();
      label ready:
      t.Append(Message(topic, 0, key, value, headers));
      assert Valid() && View() == old(View())[topic := t.View()] by {
        OnlyTopicChanged@ready(topic);
        OverwriteTwice(old(View()), topic, Look(old(View()), topic), t.View());
      }
    }

    method Commit(group: string, topic: string, offset: nat)
      requires Valid()
      modifies this, topics.Values
      ensures Valid() && View() == AfterCommit(old(View()), topic, group, offset)
      ensures fresh(topics.Values - old(topics.Values))
    {
      var t := TopicFor(topic);
      assert View()[topic] == t.View();
      label ready:
      t.Commit(group, offset);
      assert Valid() && View() == old(View())[topic := t.View()] by {
        OnlyTopicChanged@ready(topic);
        OverwriteTwice(old(View()), topic, Look(old(View()), topic), t.View());
      }
    }

    /** One pass of the consume loop over a subscription to a single topic. */
    method Poll(group: string, topic: string, reset: Reset) returns (next: Option<Message>)
      requires Valid()
      modifies this, topics.Values
      ensures Valid() && View() == AfterPoll(old(View()), topic, group, reset)
      ensures next == Polled(old(View()), topic, group, reset)
      ensures topics == old(topics)
    {
      next := None;
      if topic in topics {
        next := topics[topic].NextFor(group, reset);
      }
      assert View() == AfterPoll(old(View()), topic, group, reset);
    }
  }
}

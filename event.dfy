/** The mapping of a Pub/Sub message to a pipeline event: the topic ID
    prefix, the event ID built from it, and the event's fields
    (makeTopicID and makeEvent in x-pack/filebeat/input/gcppubsub/input.go). */
module PubSubEvent {

  import opened Wrappers
  import opened Hex

  /** A SHA-256 digest (FIPS 180-4): 32 bytes. */
  type Digest = d: seq<byte> | |d| == 32 witness seq(32, i => 0)

  /** SHA-256 over the bytes of a text. The hash's internals are not part of
      this model: the hash is a parameter wherever it is used. Go strings are
      byte strings, so here each character stands for one byte. */
  type Hasher = string -> Digest

  /** makeTopicID: the first 10 lower-case hex digits of SHA-256 over the
      project ID followed by the topic name (two writes into one hash state
      hash their concatenation). */
  function MakeTopicID(sha256: Hasher, project: string, topic: string): (id: string)
    ensures |id| == 10
    ensures forall i | 0 <= i < |id| :: IsHexDigit(id[i])
  {
    Encode(sha256(project + topic))[..10]
  }

  /** The topic ID is the encoding of the first five digest bytes, so it
      decodes back to them. */
  lemma TopicIDDecodes(sha256: Hasher, project: string, topic: string)
    ensures Decode(MakeTopicID(sha256, project, topic)) == Some(sha256(project + topic)[..5])
  {
    var d := sha256(project + topic);
    EncodePrefix(d, 5);
    DecodeEncode(d[..5]);
  }

  /** The topic ID depends only on the concatenation of project and topic:
      moving characters across the boundary gives the same ID. */
  lemma TopicIDOfConcatenation(sha256: Hasher, p1: string, t1: string, p2: string, t2: string)
    requires p1 + t1 == p2 + t2
    ensures MakeTopicID(sha256, p1, t1) == MakeTopicID(sha256, p2, t2)
  {
  }

  /** An instant in time; time zones and clocks are not modelled. */
  datatype Timestamp = Timestamp(unixNanos: int)

  /** A received Pub/Sub message: its topic-unique ID, payload bytes,
      attributes and publish time. */
  datatype Message = Message(id: string, data: seq<byte>, attributes: map<string, string>, publishTime: Timestamp)

  /** The event's fields: event.id, event.created, message, and labels when
      the message has attributes. */
  datatype Fields = Fields(eventID: string, created: Timestamp, message: string, labels: Option<map<string, string>>)

  /** A pipeline event: its document ID (set with SetID), timestamp, fields,
      and the original message kept as the event's private data. */
  datatype Event = Event(id: string, timestamp: Timestamp, fields: Fields, private: Message)

  /** string(msg.Data): the payload bytes as text, one character per byte. */
  function Text(data: seq<byte>): (s: string)
    ensures |s| == |data|
    ensures forall i | 0 <= i < |data| :: s[i] as int == data[i]
  {
    seq(|data|, i requires 0 <= i < |data| => data[i] as char)
  }

  /** []byte(s) for a text whose characters are all bytes. */
  function Bytes(s: string): (data: seq<byte>)
    requires forall i | 0 <= i < |s| :: s[i] as int < 256
    ensures |data| == |s|
  {
    seq(|s|, i requires 0 <= i < |s| => s[i] as int)
  }

  /** The text of a payload converts back to the same bytes. */
  lemma BytesOfText(data: seq<byte>)
    ensures Bytes(Text(data)) == data
  {
  }

  /** The event ID: topic ID, a dash, then the message's own ID. */
  function EventID(topicID: string, messageID: string): (id: string)
    ensures |id| == |topicID| + 1 + |messageID|
    ensures id[..|topicID|] == topicID && id[|topicID|] == '-' && id[|topicID| + 1..] == messageID
  {
    topicID + "-" + messageID
  }

  /** makeEvent: ID and event.id from the topic ID and message ID, the
      publish time as timestamp, now as event.created, the payload as the
      message text, the attributes as labels only when there are some, and
      the message itself as private data. */
  function MakeEvent(topicID: string, msg: Message, now: Timestamp): (e: Event)
    ensures e.id == e.fields.eventID == EventID(topicID, msg.id)
    ensures e.timestamp == msg.publishTime && e.fields.created == now
    ensures |e.fields.message| == |msg.data|
    ensures forall i | 0 <= i < |msg.data| :: e.fields.message[i] as int == msg.data[i]
    ensures e.fields.labels.Some? <==> |msg.attributes| > 0
    ensures e.fields.labels.Some? ==> e.fields.labels.value == msg.attributes
    ensures e.private == msg
  {
    var id := EventID(topicID, msg.id);
    var labels := if |msg.attributes| > 0 then Some(msg.attributes) else None;
    Event(id, msg.publishTime, Fields(id, now, Text(msg.data), labels), msg)
  }

  /** Splits an event ID into topic ID and message ID: the first ten
      characters, a dash, then the rest. */
  function SplitEventID(id: string): (parts: Option<(string, string)>)
    ensures parts.Some? ==> |parts.value.0| == 10 && EventID(parts.value.0, parts.value.1) == id
  {
    if |id| >= 11 && id[10] == '-' then Some((id[..10], id[11..])) else None
  }

  /** An event built from a topic ID splits back into that topic ID and the
      message ID; in particular it is 11 characters longer than the message ID. */
  lemma SplitMakeEvent(sha256: Hasher, project: string, topic: string, msg: Message, now: Timestamp)
    ensures var e := MakeEvent(MakeTopicID(sha256, project, topic), msg, now);
      && |e.id| == 11 + |msg.id|
      && SplitEventID(e.id) == Some((MakeTopicID(sha256, project, topic), msg.id))
  {
    var topicID := MakeTopicID(sha256, project, topic);
    var id := EventID(topicID, msg.id);
    assert id[..10] == topicID && id[10] == '-' && id[11..] == msg.id;
  }

  /** Within one topic, distinct message IDs give distinct event IDs, and the
      same (project, topic, message ID) always gives the same event ID. */
  lemma EventIDInjective(topicID: string, m1: string, m2: string)
    requires |topicID| == 10
    ensures EventID(topicID, m1) == EventID(topicID, m2) <==> m1 == m2
  {
    if EventID(topicID, m1) == EventID(topicID, m2) {
      assert m1 == EventID(topicID, m1)[11..];
      assert m2 == EventID(topicID, m2)[11..];
    }
  }
}

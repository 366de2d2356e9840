/**
 * The MQTT manager's own bookkeeping: the per-topic inbound message store
 * and the connection flag, updated in place by the connect and message
 * callbacks and by the application's reads. The transport client behind it
 * is not modelled.
 */
module Manager {
  import opened Wrappers
  import opened Payloads
  import opened MessageStore
  import opened Connack
  import opened Session

  class MQTTManager {
    /** Topic to the payloads received on it, oldest first. */
    var messageQueue: Queue
    /** Raised by an accepting connect result and never lowered. */
    var isConnected: bool
    /** The UTF-8 decoder and JSON parser the message callback uses. */
    const codec: Codec

    ghost function State(): Session.State
      reads this
    {
      Session.State(messageQueue, isConnected)
    }

    constructor (codec: Codec)
      ensures State() == INITIAL
      ensures messageQueue == map[] && !isConnected
      ensures this.codec == codec
    {
      this.codec := codec;
      messageQueue := map[];
      isConnected := false;
    }

    /**
     * The connect callback: code 0 raises the flag; any other code leaves it
     * and yields the reason the connection was refused.
     */
    method OnConnect(rc: int) returns (outcome: Outcome)
      modifies this`isConnected
      ensures isConnected == ConnectedAfter(old(isConnected), rc)
      ensures outcome == Classify(rc)
      ensures State() == Step(old(State()), ConnectResult(rc), codec)
    {
      if rc == 0 {
        isConnected := true;
        outcome := Accepted;
      } else {
        outcome := Refused(RefusalReason(rc));
      }
    }

    /**
     * The message callback: decode, parse or keep the text, and append to the
     * topic's list (creating it); a payload that is not UTF-8 stores nothing.
     */
    method OnMessage(topic: string, raw: seq<byte>)
      modifies this`messageQueue
      ensures codec.decodeUtf8(raw).None? ==> messageQueue == old(messageQueue)
      ensures codec.decodeUtf8(raw).Some? ==>
                messageQueue == Append(old(messageQueue), topic, Interpret(codec.decodeUtf8(raw).value, codec.parseJson))
      ensures State() == Step(old(State()), Arrival(topic, raw), codec)
    {
      var text := codec.decodeUtf8(raw);
      if text.Some? {
        var parsed := Interpret(text.value, codec.parseJson);
        if topic !in messageQueue {
          messageQueue := messageQueue[topic := []];
        }
        messageQueue := messageQueue[topic := messageQueue[topic] + [parsed]];
      }
    }

    /**
     * The application's read: the topic's list (empty for an unknown topic);
     * with `clear` (the default), the topic's entry is reset to an empty list.
     */
    method GetMessages(topic: string, clear: bool := true) returns (messages: seq<Payload>)
      modifies this`messageQueue
      ensures messages == Messages(old(messageQueue), topic)
      ensures messageQueue == if clear then Cleared(old(messageQueue), topic) else old(messageQueue)
      ensures State() == Step(old(State()), Fetch(topic, clear), codec)
      ensures messages == Reply(old(State()), Fetch(topic, clear))
    {
      messages := if topic in messageQueue then messageQueue[topic] else [];
      if clear {
        messageQueue := messageQueue[topic := []];
      }
    }

    /** Disconnecting stops the transport only; neither field changes. */
    method Disconnect()
      ensures State() == Step(old(State()), Session.Disconnect, codec)
    {
    }
  }

  /**
   * A JSON message arrives on a topic, a default (clearing) read returns
   * its parsed value, and a second read returns nothing.
   */
  method Scenario(codec: Codec, raw: seq<byte>, text: string, v: Json)
    returns (first: seq<Payload>, second: seq<Payload>)
    requires codec.decodeUtf8(raw) == Some(text) && codec.parseJson(text) == Some(v)
    ensures first == [Parsed(v)]
    ensures second == []
  {
    var m := new MQTTManager(codec);
    var topic := "sensors/climate/temperature";
    m.OnMessage(topic, raw);
    first := m.GetMessages(topic);
    second := m.GetMessages(topic, false);
  }
}

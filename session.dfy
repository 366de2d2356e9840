/**
 * The manager's two pieces of state as one value, the events that change
 * them, and what any sequence of events does to them: no message is lost
 * or duplicated, a topic's list depends only on events on that topic, and
 * the connection flag is raised exactly by an accepting connect result.
 */
module Session {
  import opened Payloads
  import opened MessageStore
  import opened Connack

  datatype State = State(queue: Queue, connected: bool)

  /** A freshly constructed manager: no messages, not connected. */
  const INITIAL: State := State(map[], false)

  /** The calls that reach the manager's state. */
  datatype Event =
    | ConnectResult(rc: int)               // connect callback with return code rc
    | Arrival(topic: string, raw: seq<byte>) // message callback
    | Fetch(topic: string, clear: bool)    // application reads a topic
    | Disconnect                           // application disconnects

  function Step(s: State, e: Event, codec: Codec): (s': State)
    ensures s'.connected <==> s.connected || e == ConnectResult(0)
    ensures !e.Arrival? && !(e.Fetch? && e.clear) ==> s'.queue == s.queue
  {
    match e
    case ConnectResult(rc) => s.(connected := ConnectedAfter(s.connected, rc))
    case Arrival(topic, raw) =>
      (match Receive(raw, codec)
       case None => s
       case Some(p) => s.(queue := Append(s.queue, topic, p)))
    case Fetch(topic, clear) => if clear then s.(queue := Cleared(s.queue, topic)) else s
    case Disconnect => s
  }

  /** What an event hands back to the application: a read returns the topic's list. */
  function Reply(s: State, e: Event): (ms: seq<Payload>)
    ensures !e.Fetch? ==> ms == []
    ensures e.Fetch? ==> (ms == [] <==> e.topic !in s.queue || s.queue[e.topic] == [])
  {
    if e.Fetch? then Messages(s.queue, e.topic) else []
  }

  function Run(s: State, trace: seq<Event>, codec: Codec): State
    decreases |trace|
  {
    if trace == [] then s else Run(Step(s, trace[0], codec), trace[1..], codec)
  }

  /** The payloads that `e` stores on `topic`. */
  function Stored(e: Event, codec: Codec, topic: string): seq<Payload>
  {
    if e.Arrival? && e.topic == topic && Receive(e.raw, codec).Some?
    then [Receive(e.raw, codec).value]
    else []
  }

  /** The payloads `e` takes off `topic` for good: those a clearing read returns. */
  function Taken(s: State, e: Event, topic: string): seq<Payload>
  {
    if e == Fetch(topic, true) then Reply(s, e) else []
  }

  /** Everything stored on `topic` by `trace`, in arrival order. */
  function Arrived(trace: seq<Event>, codec: Codec, topic: string): seq<Payload>
    decreases |trace|
  {
    if trace == [] then [] else Stored(trace[0], codec, topic) + Arrived(trace[1..], codec, topic)
  }

  /** Everything the clearing reads of `topic` in `trace` returned, in order. */
  function Drained(s: State, trace: seq<Event>, codec: Codec, topic: string): seq<Payload>
    decreases |trace|
  {
    if trace == [] then []
    else Taken(s, trace[0], topic) + Drained(Step(s, trace[0], codec), trace[1..], codec, topic)
  }

  /** The events of `trace` that name `topic`. */
  function OnTopic(trace: seq<Event>, topic: string): seq<Event>
    decreases |trace|
  {
    if trace == [] then []
    else if (trace[0].Arrival? || trace[0].Fetch?) && trace[0].topic == topic
    then [trace[0]] + OnTopic(trace[1..], topic)
    else OnTopic(trace[1..], topic)
  }

  /** One step keeps the balance: what it takes plus what is left equals what was there plus what it stores. */
  lemma StepConserves(s: State, e: Event, codec: Codec, topic: string)
    ensures Taken(s, e, topic) + Messages(Step(s, e, codec).queue, topic)
         == Messages(s.queue, topic) + Stored(e, codec, topic)
  {
  }

  /**
   * No message is lost or duplicated: what the clearing reads returned,
   * followed by what is still held, is what was held at the start followed
   * by everything that arrived, in arrival order.
   */
  lemma {:induction false} Conservation(s: State, trace: seq<Event>, codec: Codec, topic: string)
    ensures Drained(s, trace, codec, topic) + Messages(Run(s, trace, codec).queue, topic)
         == Messages(s.queue, topic) + Arrived(trace, codec, topic)
    decreases |trace|
  {
    if trace != [] {
      var e, s', rest := trace[0], Step(s, trace[0], codec), trace[1..];
      Conservation(s', rest, codec, topic);
      StepConserves(s, e, codec, topic);
      var taken, stored := Taken(s, e, topic), Stored(e, codec, topic);
      var before, middle := Messages(s.queue, topic), Messages(s'.queue, topic);
      var drainedRest, arrivedRest := Drained(s', rest, codec, topic), Arrived(rest, codec, topic);
      var after := Messages(Run(s', rest, codec).queue, topic);
      assert Drained(s, trace, codec, topic) == taken + drainedRest;
      assert Arrived(trace, codec, topic) == stored + arrivedRest;
      assert Run(s, trace, codec) == Run(s', rest, codec);
      Rebalance(taken, drainedRest, after, middle, arrivedRest, before, stored);
    }
  }

  /** The sequence algebra behind one step of Conservation. */
  lemma Rebalance<T>(taken: seq<T>, drainedRest: seq<T>, after: seq<T>, middle: seq<T>,
                     arrivedRest: seq<T>, before: seq<T>, stored: seq<T>)
    requires drainedRest + after == middle + arrivedRest
    requires taken + middle == before + stored
    ensures (taken + drainedRest) + after == before + (stored + arrivedRest)
  {
    calc {
      (taken + drainedRest) + after;
      taken + (drainedRest + after);
      taken + (middle + arrivedRest);
      (taken + middle) + arrivedRest;
      (before + stored) + arrivedRest;
      before + (stored + arrivedRest);
    }
  }

  /** From a fresh manager, what a topic holds is exactly what arrived on it and was not yet drained. */
  lemma HeldIsUndrainedArrivals(trace: seq<Event>, codec: Codec, topic: string)
    ensures Arrived(trace, codec, topic)
         == Drained(INITIAL, trace, codec, topic) + Messages(Run(INITIAL, trace, codec).queue, topic)
  {
    Conservation(INITIAL, trace, codec, topic);
  }

  /** The connection flag is up after a trace exactly when it was up before or the trace holds an accepting result. */
  lemma {:induction false} ConnectedIffAccepted(s: State, trace: seq<Event>, codec: Codec)
    ensures Run(s, trace, codec).connected <==> s.connected || ConnectResult(0) in trace
    decreases |trace|
  {
    if trace != [] {
      ConnectedIffAccepted(Step(s, trace[0], codec), trace[1..], codec);
      assert trace == [trace[0]] + trace[1..];
    }
  }

  /** Once connected, no event (disconnecting included) lowers the flag. */
  lemma ConnectedIsMonotone(s: State, trace: seq<Event>, codec: Codec)
    requires s.connected
    ensures Run(s, trace, codec).connected
  {
    ConnectedIffAccepted(s, trace, codec);
  }

  /**
   * A topic's list depends only on the events on that topic: running the
   * whole trace, or only its events on `topic`, from states that agree on
   * `topic`, ends with the same list.
   */
  lemma {:induction false} TopicIsolation(s1: State, s2: State, trace: seq<Event>, codec: Codec, topic: string)
    requires Messages(s1.queue, topic) == Messages(s2.queue, topic)
    ensures Messages(Run(s1, trace, codec).queue, topic)
         == Messages(Run(s2, OnTopic(trace, topic), codec).queue, topic)
    decreases |trace|
  {
    if trace != [] {
      var e := trace[0];
      if (e.Arrival? || e.Fetch?) && e.topic == topic {
        assert Messages(Step(s1, e, codec).queue, topic) == Messages(Step(s2, e, codec).queue, topic);
        TopicIsolation(Step(s1, e, codec), Step(s2, e, codec), trace[1..], codec, topic);
        assert Run(s2, OnTopic(trace, topic), codec)
            == Run(Step(s2, e, codec), OnTopic(trace[1..], topic), codec);
      } else {
        assert Messages(Step(s1, e, codec).queue, topic) == Messages(s1.queue, topic);
        TopicIsolation(Step(s1, e, codec), s2, trace[1..], codec, topic);
      }
    }
  }

  /** A clearing read followed by any read of the same topic returns nothing the second time. */
  lemma SecondReadAfterClearIsEmpty(s: State, topic: string, clear: bool, codec: Codec)
    ensures Reply(Step(s, Fetch(topic, true), codec), Fetch(topic, clear)) == []
  {
  }

  /** A non-clearing read changes nothing, so repeating it returns the same list. */
  lemma PeekIsIdempotent(s: State, topic: string, codec: Codec)
    ensures Step(s, Fetch(topic, false), codec) == s
    ensures Reply(Step(s, Fetch(topic, false), codec), Fetch(topic, false)) == Reply(s, Fetch(topic, false))
  {
  }

  /**
   * A clearing read of a topic that never received a message still creates
   * its key, holding an empty list: key presence does not mean that a
   * message is waiting.
   */
  lemma ClearCreatesEmptyKey(s: State, topic: string, codec: Codec)
    requires topic !in s.queue
    ensures topic in Step(s, Fetch(topic, true), codec).queue
    ensures Step(s, Fetch(topic, true), codec).queue[topic] == []
    ensures Step(s, Fetch(topic, true), codec).queue.Keys == s.queue.Keys + {topic}
  {
  }
}

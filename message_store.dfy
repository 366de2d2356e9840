/**
 * The inbound message store: a dictionary from topic (the exact topic a
 * message arrived on) to the list of payloads received on it, oldest first.
 */
module MessageStore {
  import opened Payloads

  type Queue = map<string, seq<Payload>>

  /** The messages held for `topic`; an unknown topic holds none. */
  function Messages(q: Queue, topic: string): seq<Payload>
  {
    if topic in q then q[topic] else []
  }

  /**
   * The store after a message arrives on `topic`: its list, created empty
   * if the topic is new, gains `p` at the end.
   */
  function Append(q: Queue, topic: string, p: Payload): (r: Queue)
    ensures r.Keys == q.Keys + {topic}
    ensures |Messages(r, topic)| == |Messages(q, topic)| + 1
    ensures Messages(r, topic)[|Messages(q, topic)|] == p
    ensures forall i :: 0 <= i < |Messages(q, topic)| ==> Messages(r, topic)[i] == Messages(q, topic)[i]
    ensures forall t :: t != topic ==> Messages(r, t) == Messages(q, t)
    ensures forall t :: t != topic && t in q ==> r[t] == q[t]
  {
    var existing := if topic in q then q else q[topic := []];
    existing[topic := existing[topic] + [p]]
  }

  /**
   * The store after a clearing read of `topic`: its list is reset to empty,
   * and the key is created if it was absent.
   */
  function Cleared(q: Queue, topic: string): (r: Queue)
    ensures r.Keys == q.Keys + {topic}
    ensures topic in r && r[topic] == []
    ensures forall t :: t != topic ==> Messages(r, t) == Messages(q, t)
    ensures forall t :: t != topic && t in q ==> r[t] == q[t]
  {
    q[topic := []]
  }

  /** Appending on one topic and clearing another commute. */
  lemma AppendClearedCommute(q: Queue, t: string, u: string, p: Payload)
    requires t != u
    ensures Append(Cleared(q, u), t, p) == Cleared(Append(q, t, p), u)
  {
  }
}

# MQTTManager bookkeeping, modelled in Dafny

`MQTTManager` (MQTT.py) is a thin client-side wrapper around the paho MQTT client.
Its own logic is two pieces of state and the callbacks that update them:

- `message_queue`: a dictionary from topic to the list of payloads received on that topic.
  The message callback decodes each payload as UTF-8 text. It stores the parsed JSON value, or the text itself when the text is not JSON.
  The application reads a topic with `get_messages`, which can also empty the topic's list.
- `is_connected`: a flag that the connect callback raises when the broker accepts the connection (CONNACK return code 0).
  Any other code is reported using the refusal table of section 3.2.2.3 of the MQTT 3.1.1 standard.

The model has the following modules:

- `Payloads`: the payload types and the decode-then-parse-or-keep-text rule.
  UTF-8 decoding and JSON parsing are opaque partial functions held in a `Codec`.
- `Connack`: the return-code table and the flag transition, as functions.
- `MessageStore`: the topic dictionary as a `map<string, seq<Payload>>`, with lookup, append and clear.
- `Session`: the two fields as one value, the events that change them, and lemmas about any sequence of events.
  These lemmas state that no message is lost or duplicated, that topics are isolated from each other, and that the flag is raised exactly by an accepting result.
- `Manager`: the class `MQTTManager`, whose fields are updated in place by `OnConnect`, `OnMessage`, `GetMessages` and `Disconnect`.
  Each method states its new state in terms of the `MessageStore`/`Connack` functions and as one `Session.Step`.

The model follows what the code does, including where one might expect otherwise:

- There is no `Disconnected`/`Failed` state. `disconnect` never clears `is_connected`, so the flag is monotone (`Session.ConnectedIsMonotone`).
- A payload that is not valid UTF-8 raises inside the handler. The outer `except` catches the error, and the message is dropped rather than stored raw.
- A clearing read of a topic creates the key with an empty list. So key presence does not mean that a message is waiting (`Session.ClearCreatesEmptyKey`). Reads cannot tell an empty list from an absent key.
- There is no lock. The model is sequential.

## Model

| member | source | states |
|---|---|---|
| `Manager.MQTTManager.constructor` | MQTT.py:40-43 | A fresh manager has an empty message store and is not connected. |
| `Manager.MQTTManager.OnConnect` | MQTT.py:45-58 | Code 0 raises the flag. Any other code leaves the flag as it was and reports the table's reason. The message store is untouched. |
| `Manager.MQTTManager.OnMessage` | MQTT.py:60-81 | A payload that fails UTF-8 decoding leaves the store unchanged. Otherwise the topic's list (created if absent) gains exactly the interpreted payload at its end. Every other topic is unchanged. |
| `Manager.MQTTManager.GetMessages` | MQTT.py:143-148 | Returns the topic's list, or the empty list for an unknown topic. Without `clear`, nothing changes. With `clear` (the default), the topic's entry becomes `[]` (created if absent) and other topics are untouched. |
| `Manager.MQTTManager.Disconnect` | MQTT.py:150-157 | Disconnecting changes neither the store nor the flag. |
| `Manager.Scenario` | MQTT.py:143-148 | A JSON message arrives. A default read (which clears) then returns exactly its parsed value, and a following read returns nothing. |
| `Payloads.Interpret` | MQTT.py:67-70 | The stored item is raw text exactly when JSON parsing fails, and then it is the text verbatim. Otherwise it is the parsed value. |
| `Payloads.Receive` | MQTT.py:62-70 | Nothing is stored exactly when UTF-8 decoding fails. Otherwise what is stored is the decoded text verbatim (when not JSON) or its parse. |
| `Payloads.NonJsonStoredVerbatim` | MQTT.py:69-70 | Decodable text that is not JSON is stored as that exact text. |
| `Payloads.JsonStoredParsed` | MQTT.py:67-68 | Decodable JSON text is stored as its parsed value. |
| `Connack.RefusalReason` | MQTT.py:51-58 | Codes 1 to 5 give their fixed reasons. Every other code, and only those, gives "Unknown error". |
| `Connack.Classify` | MQTT.py:47-58 | A connection is accepted if and only if the code is 0. A refusal carries the table's reason. |
| `Connack.ConnectedAfter` | MQTT.py:47-49 | The flag after a result is up if and only if it was up or the code is 0. It is never lowered. |
| `Connack.RefusalReasonsDistinct` | MQTT.py:51-57 | The five standard refusals have pairwise different reasons. |
| `MessageStore.Append` | MQTT.py:76-78 | The keys gain the topic. The topic's list is the old list (or `[]`) plus one item at the end, with earlier items in order. All other topics are unchanged. |
| `MessageStore.Cleared` | MQTT.py:146-147 | The keys gain the topic. The topic's list is `[]`, and all other topics are unchanged. |
| `MessageStore.AppendClearedCommute` | MQTT.py:76-78 | An append on one topic and a clear of another give the same store in either order. |
| `Session.Step` | MQTT.py:45-81 | After any event, the flag is up if and only if it was up or the event is an accepting connect result. Only arrivals and clearing reads change the store. |
| `Session.Reply` | MQTT.py:143-148 | Only reads return messages. A read returns nothing exactly when the topic is absent or its list is empty. |
| `Session.StepConserves` | MQTT.py:76-78 | For each event: what it drains plus what remains equals what was held plus what it stores. |
| `Session.Conservation` | MQTT.py:76-78 | For any trace, the clearing reads' results followed by what is still held equal the initial list followed by all arrivals, in order. No message is lost or duplicated. |
| `Session.HeldIsUndrainedArrivals` | MQTT.py:40 | From a fresh manager, the arrivals on a topic are exactly what was drained followed by what is held. |
| `Session.ConnectedIffAccepted` | MQTT.py:43-49 | After any trace, the flag is up if and only if it was up before or the trace contains a code-0 connect result. |
| `Session.ConnectedIsMonotone` | MQTT.py:150-157 | Once connected, no trace (disconnecting included) lowers the flag. |
| `Session.TopicIsolation` | MQTT.py:76-78 | A topic's list after a trace equals its list after only that topic's events, from any state that agrees on the topic. |
| `Session.SecondReadAfterClearIsEmpty` | MQTT.py:146-148 | After a clearing read, a second read of the topic returns `[]`. |
| `Session.PeekIsIdempotent` | MQTT.py:145-148 | A non-clearing read changes nothing, so repeating it returns the same list. |
| `Session.ClearCreatesEmptyKey` | MQTT.py:146-147 | From any state, a clearing read of a topic that has no key creates exactly that key, holding an empty list. |

## Left out

- The paho client and all transport calls: client creation, `connect`, `loop_start`, `loop_stop`, `disconnect`, `subscribe` and `publish` (MQTT.py:27, 98-105, 127-132, 139, 153-154). They are foreign library calls. Topic-wildcard matching is the broker's job.
- The wait loop in `connect` (MQTT.py:108-113). It polls the flag against the wall clock while a background thread sets it, so it is about timing and concurrency.
- `publish`'s choice between `json.dumps` and `str` (MQTT.py:123-129). It only prepares the payload handed to the library.
- `_on_publish` and `_on_subscribe` (MQTT.py:83-89). They only log.
- UTF-8 decoding and JSON parsing internals. They are the `Codec`'s opaque functions. Exceptions from `json.loads` other than a decode error (such as excessive nesting) are not modelled.
- Logging (MQTT.py:15-19 and every `logger` call). `OnConnect` returns the refusal reason that the source only writes to the log.
- Connection parameters and the random client identifier (MQTT.py:22-31). They only feed the transport and depend on `random`.
- `simulate_sensor_data` and `main` (MQTT.py:159-232). They are endless driver loops with threads, sleeps and random values.
- Manager.MQTTManager.GetMessages: returns the list as a value. In Python, a non-clearing read returns the stored list object itself, so the caller's list keeps growing with later arrivals. Aliasing is not modelled.
- Concurrency: the source has no lock, and the model is sequential.
- Payload types: the model keeps a distinction that the program loses. Python stores both the JSON text `"on"` and the non-JSON text `on` as the same str `'on'`, while the model stores `Parsed(JString("on"))` and `Raw("on")`. The model also represents a JSON number by its literal text, whereas `json.loads` builds an int or a float.

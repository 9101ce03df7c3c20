# Stoq server event stream broker, in Dafny

This project models the event stream of the Stoq point-of-sale server
(`stoqserver/lib/eventstream.py`). The server keeps one long-lived
server-sent-event stream per station. Business code pushes events to one
station (`put`) or to all of them (`put_all`). Payment code asks a station a
question and waits for its answer (`ask_question`). The reply endpoint
delivers that answer into a single-slot queue (`put_reply`). When a station
opens a new stream (`get`), its stale question, if any, is broken with a
sentinel, and the queue is seeded with a keepalive and, after a cancelled
TEF transaction, a warning and a clear-sale event. The serving loop (`_loop`)
writes every queued item as one `data:` frame.

Files:

- `wrappers.dfy`: the `Option` type.
- `json_text.dfy` (module `JsonText`): the JSON text Python's `json.dumps`
  writes with its default settings, for null, booleans, integers, strings,
  lists and dicts. It proves that the text is always printable ASCII.
- `sse.dfy` (module `Sse`): the frame format, and a reader that recovers the
  JSON texts from the written frames, with the round-trip proof.
- `event_stream.dfy` (module `EventStreams`): the class `EventStream`. Its
  fields are the three per-station maps of the source: `streams` (station to
  its session's `Queue` object), `replies` (the single-slot reply queue, as an
  `Option<Reply>`) and `waiting` (the flag). A ghost map `askers` counts the
  `ask_question` calls parked on each slot. `Queue` is the unbounded FIFO
  queue each session owns. A superseded session keeps its own queue object
  after the registry moves on to the new one.
- `scenarios.dfy` (module `Scenarios`): client runs, each on a fresh broker.
  They cover push order, broadcast, the question round trip, the reconnect
  race and the finding below.

Blocking points are preconditions, and the operation resumes in the state
where the precondition holds. `Queue.Get` needs an item. `AskComplete`
needs a full slot. `DeliverSentinel` needs an empty slot. So `ask_question`
is split into `AskBegin` and `AskComplete`, and `get` is split into `Open`,
`DeliverSentinel` and `Greet` at the `put` into the slot at line 128.
Failed `assert`s and missing dict keys are modelled as an `Outcome` (`AssertionFailed`, `KeyMissing`) with the state left unchanged.

Three behaviours of the code that a reader might not expect:

- Only the first receiver's answer to the pending-transaction signal
  (`has_canceled[0][1]`, line 137) is read. The answers of other receivers
  are ignored.
- The keepalive is the string `json.dumps({})`, and the loop encodes it a
  second time. Its frame is `data: "{}"`.
- Pushing to a station with no stream fails the assertion at line 74.

## Model

| member | source | states |
|---|---|---|
| `JsonText.Serialize` | stoqserver/lib/eventstream.py:111 | the JSON text of any value is non-empty printable ASCII, so it never holds a line break |
| `JsonText.EscapeChar` | stoqserver/lib/eventstream.py:111 | a string character is escaped to printable ASCII and kept as-is exactly when it is printable ASCII other than quote and backslash |
| `Sse.ParseFrame` | stoqserver/lib/eventstream.py:111 | a frame `"data: " + payload + "\n\n"` with a single-line payload is read back as that payload, followed by whatever frames come after it |
| `Sse.ReadBack` | stoqserver/lib/eventstream.py:108-111 | the frames written for a sequence of items read back as the items' JSON texts: one event per item, in queue order |
| `EventStreams.KeepaliveFrame` | stoqserver/lib/eventstream.py:132 | whatever the pending-transaction signal reported, the first frame of a session is `data: "{}"`: the keepalive string is JSON-encoded a second time |
| `EventStreams.Queue.constructor` | stoqserver/lib/eventstream.py:115 | a new session queue is empty |
| `EventStreams.Queue.Put` | stoqserver/lib/eventstream.py:75 | the item is appended at the end of the queue |
| `EventStreams.Queue.Get` | stoqserver/lib/eventstream.py:110 | the oldest item is returned and removed (FIFO) |
| `EventStreams.EventStream.constructor` | stoqserver/lib/eventstream.py:61-67 | the registry starts with no stations, slots or flags |
| `EventStreams.EventStream.Put` | stoqserver/lib/eventstream.py:71-75 | an unregistered station fails the assertion and nothing changes; otherwise the data is appended to that station's queue, every other queue is untouched, and the slot and flag maps are unchanged |
| `EventStreams.EventStream.PutAll` | stoqserver/lib/eventstream.py:77-81 | the data is appended to every registered queue; the stations, slots and flags are unchanged |
| `EventStreams.EventStream.AskBegin` | stoqserver/lib/eventstream.py:83-93 | the `TEF_ASK_QUESTION` event carrying the question is appended to the station's queue and the flag is set; an unregistered station fails the assertion and nothing changes |
| `EventStreams.EventStream.AskComplete` | stoqserver/lib/eventstream.py:94-97 | once the slot is full, the asker returns exactly the value in it, the slot becomes empty and the flag is cleared |
| `EventStreams.EventStream.PutReply` | stoqserver/lib/eventstream.py:99-106 | an unknown station is a missing key; a full slot or a cleared flag fails the assertion; otherwise the slot holds exactly the answer and the flag stays set; nothing else changes |
| `EventStreams.EventStream.Open` | stoqserver/lib/eventstream.py:114-124 | a fresh empty queue becomes the station's stream; an existing slot and flag are kept, missing ones are created empty and cleared; reports whether the flag is set |
| `EventStreams.EventStream.DeliverSentinel` | stoqserver/lib/eventstream.py:124-129 | as written: once the slot is empty, it holds the broken sentinel and the flag is cleared |
| `EventStreams.EventStream.Greet` | stoqserver/lib/eventstream.py:131-141 | the queue gains the keepalive, then the TEF warning and `CLEAR_SALE` in that order exactly when the signal's first result is true |
| `EventStreams.EventStream.Register` | stoqserver/lib/eventstream.py:114-142 | `get` with the corrected sentinel step: the new queue holds exactly the greeting; slot and flag are created if absent; a set flag with an empty slot becomes the sentinel and a cleared flag; otherwise slot and flag are untouched; other stations are unchanged; no reply is left orphaned |
| `EventStreams.EventStream.Loop` | stoqserver/lib/eventstream.py:108-111 | n iterations of the loop take the first n queued items and yield their frames `"data: " + json + "\n\n"` in FIFO order |
| `Scenarios.PushIsServedInOrder` | stoqserver/lib/eventstream.py:71-75 | after a station connects and one event is pushed, its session serves the greeting and then that event, and the frames read back in that order |
| `Scenarios.PushToUnknownStation` | stoqserver/lib/eventstream.py:74 | pushing to a station that never connected fails the assertion |
| `Scenarios.BroadcastReachesRegisteredOnly` | stoqserver/lib/eventstream.py:77-81 | a broadcast reaches the sessions registered at the time and not a session opened afterwards |
| `Scenarios.QuestionRoundTrip` | stoqserver/lib/eventstream.py:83-106 | the asker gets exactly the delivered answer; a second delivery is rejected; the next question is answered independently; a never-connected station has no slot |
| `Scenarios.QuestionIsServed` | stoqserver/lib/eventstream.py:87-90 | a question is served after the keepalive as a `TEF_ASK_QUESTION` frame carrying it |
| `Scenarios.ReconnectBreaksQuestion` | stoqserver/lib/eventstream.py:118-132 | a reconnect during a question gives the asker the broken sentinel and clears the flag; a late answer is rejected; the new session starts with the keepalive and the stale question stays in the old queue |
| `Scenarios.StaleSentinelAsWritten` | stoqserver/lib/eventstream.py:124-129 | with `get` as written, a reconnect after the answer reached the slot leaves a sentinel that answers the next question at once, and the station's real answer is then rejected |
| `Scenarios.AnswerSurvivesReconnect` | stoqserver/lib/eventstream.py:124-129 | with the corrected `get`, the same run delivers the first answer, makes the next question wait for the station, and delivers its answer |

## Left out

- HTTP and Flask plumbing are not modelled: `Response`, the `token` argument, `get_current_station` and `BaseResource`. The station id is a parameter of `Open` and `Register`.
- gevent scheduling is not modelled. Each blocking `get` or `put` is a precondition, and `ask_question` and `get` are split at their blocking points. A `get` that interleaves with another `get` for the same station is not modelled.
- `TefCheckPendingEvent.send()` is not part of this model. Its result is a parameter: a sequence of (receiver, bool) pairs.
- `JsonEncoder` (in `stoqserver/utils`) is not part of this model. Values it adds beyond plain JSON, such as decimals, dates and floats, are left out. Python strings holding lone surrogates are left out too, because Dafny characters cannot hold them.
- The station's answer is a JSON value. Python would accept any object there.
- Logging is not modelled.
- The receivers of `TefCheckPendingEvent.send()` (line 136) are assumed not to yield. `Greet` appends the keepalive, the TEF warning and `CLEAR_SALE` as one step, so the model does not capture a push from another request landing between the keepalive and the warning.
- EventStreams.EventStream.Loop: models the first n turns of the endless `while True` loop. It does not model the generator being closed when the client disconnects. Line 112 is never reached.
- Sse.ParseFrames reads only the frames this server writes: single-line `data` fields, each followed by a blank line. It is not a general event-stream parser.
- Two `ask_question` calls outstanding at once for the same station are allowed, as in the source. The ghost `askers` count tracks them, but no property is stated about which of them gets the answer.
- `tests/lib/test_restful.py` tests the endpoints of `restful.py` against a database. `restful.py` is not part of this model.

## Findings

| source | as written | input that shows it | evidently intended | confidence | as-written member | corrected member |
|---|---|---|---|---|---|---|
| stoqserver/lib/eventstream.py:124-129 | `get` puts the sentinel whenever the flag is set. If the answer is already in the slot, the put waits for the asker to take it, then puts the sentinel into a slot nobody is waiting on. | `ask_question(q1)`; `put_reply(a)`; the station reconnects before the asker resumes; the asker returns `a`; `ask_question(q2)` returns the sentinel at once; the station's answer to `q2` fails the assertion at line 104 | deliver the sentinel only when the flag is set and the slot is empty; an answer already in the slot is left for its asker | low, not executed; it needs the reconnecting request to run between `put_reply` and the asker waking up | `Scenarios.StaleSentinelAsWritten` | `EventStreams.EventStream.Register` |

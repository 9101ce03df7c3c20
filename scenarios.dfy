/**
 * Runs of the broker by its clients, each on a broker of its own: the stream
 * endpoint opening sessions, business code pushing events and asking
 * questions, and the reply endpoint delivering answers. Each run holds for
 * every station, event, question and answer.
 *
 * Stations connect through `Register`, the corrected `get`. Where a run
 * connects a station whose slot is empty (every connection here except in
 * `AnswerSurvivesReconnect`), `Register` does exactly what `get` as written
 * does: the sentinel step sees an empty slot, so the two agree. The
 * reconnect in `ReconnectBreaksQuestion` and the run that shows the finding
 * take the as-written steps `Open`, `DeliverSentinel` and `Greet`.
 */
module Scenarios {
  import opened Wrappers
  import opened JsonText
  import opened Sse
  import opened EventStreams

  /**
   * A station connects and business code pushes one event to it: the
   * session serves the greeting and then that event, one frame each, and
   * the frames read back as their JSON texts in that order.
   */
  method PushIsServedInOrder(station: StationId, event: Json, results: seq<(Receiver, bool)>)
    returns (outcome: Outcome, frames: seq<string>)
    ensures outcome == Ok
    ensures frames == FramesOf(Greeting(results) + [event])
    ensures ParseFrames(Join(frames)) == Some(Payloads(Greeting(results) + [event]))
  {
    var broker := new EventStream();
    var q := broker.Register(station, results);
    outcome := broker.Put(station, event);
    ghost var items := q.items;
    frames := broker.Loop(q, |q.items|);
    assert items[..|items|] == items;
    ReadBack(Greeting(results) + [event]);
  }

  /** Business code pushing to a station that never connected fails the assertion. */
  method PushToUnknownStation(station: StationId, event: Json) returns (outcome: Outcome)
    ensures outcome == AssertionFailed
  {
    var broker := new EventStream();
    outcome := broker.Put(station, event);
  }

  /**
   * A broadcast reaches the sessions registered when it is made and no
   * session opened afterwards.
   */
  method BroadcastReachesRegisteredOnly(early: StationId, late: StationId, event: Json)
    returns (earlyItems: seq<Json>, lateItems: seq<Json>)
    ensures earlyItems == Greeting([]) + [event]
    ensures lateItems == Greeting([])
  {
    var broker := new EventStream();
    var q1 := broker.Register(early, []);
    broker.PutAll(event);
    var q2 := broker.Register(late, []);
    earlyItems, lateItems := q1.items, q2.items;
  }

  /**
   * A question and its answer: the answer comes back to the asker, a second
   * delivery for the same question is rejected, and the next question is
   * answered on its own. A station that never connected has no slot.
   */
  method QuestionRoundTrip(station: StationId, question: Json, answer: Json, question2: Json, answer2: Json)
    returns (unknown: Outcome, reply: Reply, duplicate: Outcome, reply2: Reply)
    ensures unknown == KeyMissing
    ensures reply == Answer(answer)
    ensures duplicate == AssertionFailed
    ensures reply2 == Answer(answer2)
  {
    var broker := new EventStream();
    unknown := broker.PutReply(station, answer);
    var q := broker.Register(station, []);
    var outcome := broker.AskBegin(station, question);
    outcome := broker.PutReply(station, answer);
    reply := broker.AskComplete(station);
    duplicate := broker.PutReply(station, answer);
    outcome := broker.AskBegin(station, question2);
    outcome := broker.PutReply(station, answer2);
    reply2 := broker.AskComplete(station);
  }

  /**
   * A fresh broker where `station` is connected with no pending TEF
   * transaction and has just been asked `question`; the asker waits.
   */
  method Asked(station: StationId, question: Json) returns (broker: EventStream, q: Queue)
    ensures fresh(broker) && fresh(q) && broker.Valid()
    ensures station in broker.streams && broker.streams[station] == q
    ensures q.items == [Keepalive, AskQuestionEvent(question)]
    ensures broker.replies[station] == None
    ensures broker.waiting[station] && broker.askers[station] == 1
  {
    broker := new EventStream();
    q := broker.Register(station, []);
    var outcome := broker.AskBegin(station, question);
  }

  /**
   * A station connects with no pending transaction and is asked a question:
   * its session serves the keepalive and then the question event, and
   * nothing else.
   */
  method QuestionIsServed(station: StationId, question: Json)
    returns (frames: seq<string>)
    ensures frames == FramesOf([Keepalive, AskQuestionEvent(question)])
    ensures ParseFrames(Join(frames)) == Some(["\"{}\"", Serialize(AskQuestionEvent(question))])
  {
    var broker, q := Asked(station, question);
    ghost var items := q.items;
    frames := broker.Loop(q, |q.items|);
    assert items[..|items|] == items;
    ReadBack(items);
    KeepaliveFrame([]);
    assert Payloads(items) == ["\"{}\"", Serialize(AskQuestionEvent(question))];
  }

  /**
   * A station reconnects while a question is outstanding: the asker gets
   * the broken sentinel, the flag is lowered, a late answer is rejected, the
   * stale question stays in the superseded queue and the new session starts
   * with the keepalive.
   */
  method ReconnectBreaksQuestion(station: StationId, question: Json, answer: Json, results: seq<(Receiver, bool)>)
    returns (reply: Reply, flag: bool, late: Outcome, staleItems: seq<Json>, currentItems: seq<Json>)
    ensures reply == Broken
    ensures !flag
    ensures late == AssertionFailed
    ensures staleItems == [Keepalive, AskQuestionEvent(question)]
    ensures currentItems == Greeting(results) && currentItems[0] == Keepalive
  {
    var broker, q1 := Asked(station, question);
    var q2, owed := broker.Open(station);
    if owed {
      broker.DeliverSentinel(station);
    }
    broker.Greet(station, q2, results);
    reply := broker.AskComplete(station);
    flag := broker.waiting[station];
    late := broker.PutReply(station, answer);
    staleItems, currentItems := q1.items, q2.items;
  }

  /**
   * A fresh broker where `station` is connected, has been asked `question`
   * and has answered it, and the asker has not yet taken the answer.
   */
  method AnswerInSlot(station: StationId, question: Json, answer: Json) returns (broker: EventStream)
    ensures fresh(broker) && broker.Valid()
    ensures station in broker.streams && station in broker.replies
    ensures broker.replies[station] == Some(Answer(answer))
    ensures broker.waiting[station] && broker.askers[station] == 1
  {
    var q;
    broker, q := Asked(station, question);
    var outcome := broker.PutReply(station, answer);
  }

  /**
   * `get` as written, when the station reconnects after its answer reached
   * the slot but before the asker took it: the sentinel put waits for the
   * asker, then lands in the empty slot with no question outstanding. The
   * next question is answered by that stale sentinel at once, and the
   * station's real answer to it is rejected.
   */
  method StaleSentinelAsWritten(station: StationId, question: Json, answer: Json, question2: Json, answer2: Json)
    returns (reply: Reply, reply2: Reply, late: Outcome)
    ensures reply == Answer(answer)
    ensures reply2 == Broken
    ensures late == AssertionFailed
  {
    var broker := AnswerInSlot(station, question, answer);
    var q, owed := broker.Open(station);
    assert owed;
    reply := broker.AskComplete(station);
    broker.DeliverSentinel(station);
    broker.Greet(station, q, []);
    assert broker.streams[station] == q;
    assert broker.replies[station] == Some(Broken) && !broker.waiting[station];
    var outcome := broker.AskBegin(station, question2);
    assert outcome == Ok && broker.askers[station] == 1 && broker.replies[station] == Some(Broken);
    reply2 := broker.AskComplete(station);
    late := broker.PutReply(station, answer2);
  }

  /**
   * The same run with the corrected `get`: the answer already in the slot
   * is left for the asker, the next question waits for the station, and
   * the station's answer to it is delivered.
   */
  method AnswerSurvivesReconnect(station: StationId, question: Json, answer: Json, question2: Json, answer2: Json)
    returns (reply: Reply, waits: bool, delivered: Outcome, reply2: Reply)
    ensures reply == Answer(answer)
    ensures waits
    ensures delivered == Ok
    ensures reply2 == Answer(answer2)
  {
    var broker := AnswerInSlot(station, question, answer);
    var q := broker.Register(station, []);
    assert broker.streams[station] == q;
    assert broker.askers[station] == 1 && broker.replies[station] == Some(Answer(answer));
    reply := broker.AskComplete(station);
    var outcome := broker.AskBegin(station, question2);
    assert outcome == Ok && broker.waiting[station] && broker.askers[station] == 1;
    waits := broker.replies[station] == None;
    delivered := broker.PutReply(station, answer2);
    reply2 := broker.AskComplete(station);
  }
}

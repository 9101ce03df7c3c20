/**
 * The per-station event broker. The registry holds, for every station that
 * has opened a stream, the queue of events its current session serves, a
 * single-slot reply queue and a flag saying that a question is waiting for
 * that slot. Blocking points (taking from an empty queue, putting into a full
 * slot) are preconditions: the operation resumes in the state where the
 * precondition holds.
 */
module EventStreams {
  import opened Wrappers
  import opened JsonText
  import opened Sse

  /** The identifier of a point-of-sale station. */
  type StationId = string

  /** A receiver of the pending-transaction signal; only its answer is used here. */
  type Receiver = string

  /** What a question's caller takes from the reply slot: the station's answer, or the broken-stream sentinel. */
  datatype Reply = Answer(value: Json) | Broken

  /** How an operation ended: normally, or with the exception a failed assertion or a missing key raises. */
  datatype Outcome = Ok | AssertionFailed | KeyMissing

  /** The first item of every new queue: the string `json.dumps({})`, itself an item to be dumped. */
  const Keepalive: Json := Str("{}")

  /** The warning pushed when the previous TEF transaction was left pending. */
  const TefWarning: Json :=
    Obj([("type", Str("TEF_WARNING_MESSAGE")),
         ("message", Str("Última transação TEF não foi efetuada. Favor reter o Cupom."))])

  /** The event that makes the station drop its current sale. */
  const ClearSale: Json := Obj([("type", Str("CLEAR_SALE"))])

  /** The event that carries a question to the station. */
  function AskQuestionEvent(question: Json): Json {
    Obj([("type", Str("TEF_ASK_QUESTION")), ("data", question)])
  }

  /** Whether the pending-transaction signal reported a cancelled transaction: only the first receiver's answer is read. */
  predicate HasCanceled(results: seq<(Receiver, bool)>) {
    |results| > 0 && results[0].1
  }

  /** The items a new session's queue holds once the connection is set up. */
  function Greeting(results: seq<(Receiver, bool)>): seq<Json> {
    [Keepalive] + (if HasCanceled(results) then [TefWarning, ClearSale] else [])
  }

  /** The frame a new session sends first: the keepalive, JSON-encoded a second time. */
  lemma KeepaliveFrame(results: seq<(Receiver, bool)>)
    ensures FramesOf(Greeting(results))[0] == "data: \"{}\"\n\n"
    ensures Payloads([Keepalive]) == ["\"{}\""]
  {
    assert EscapeString("}") == "}";
    assert EscapeString("{}") == "{}";
    assert Serialize(Keepalive) == "\"{}\"";
  }

  /** An unbounded first-in first-out queue of events, one per stream session. */
  class Queue {
    var items: seq<Json>
    /** The station whose session created the queue. */
    ghost const owner: StationId

    constructor (ghost owner: StationId)
      ensures items == [] && this.owner == owner
    {
      items := [];
      this.owner := owner;
    }

    method Put(x: Json)
      modifies this
      ensures items == old(items) + [x]
    {
      items := items + [x];
    }

    /** Takes the oldest item; on an empty queue the caller waits, so the model requires an item. */
    method Get() returns (x: Json)
      requires items != []
      modifies this
      ensures x == old(items)[0] && items == old(items)[1..]
    {
      x := items[0];
      items := items[1..];
    }
  }

  class EventStream {
    /** The queue of each station's current session. */
    var streams: map<StationId, Queue>
    /** Each station's reply slot, a queue of capacity one. */
    var replies: map<StationId, Option<Reply>>
    /** Whether a question is waiting for the station's reply. */
    var waiting: map<StationId, bool>
    /** How many question calls are parked on each station's reply slot. */
    ghost var askers: map<StationId, nat>

    /**
     * A registered station has a slot and a flag; each station's queue was
     * created for it, so no two stations share one; a set flag means some
     * question call is parked on the slot.
     */
    ghost predicate Valid()
      reads this
    {
      && streams.Keys <= replies.Keys
      && replies.Keys == waiting.Keys == askers.Keys
      && (forall s :: s in streams ==> streams[s].owner == s)
      && (forall s :: s in waiting && waiting[s] ==> askers[s] > 0)
    }

    /** No reply sits in a slot without a question call to take it. */
    ghost predicate NoOrphanReply()
      reads this
      requires Valid()
    {
      forall s :: s in replies && replies[s].Some? ==> askers[s] > 0
    }

    constructor ()
      ensures Valid() && NoOrphanReply()
      ensures streams == map[] && replies == map[] && waiting == map[]
    {
      streams, replies, waiting := map[], map[], map[];
      askers := map[];
    }

    /** Pushes `data` to one station's current session; a station without a stream fails the assertion. */
    method Put(station: StationId, data: Json) returns (outcome: Outcome)
      requires Valid()
      modifies if station in streams then {streams[station]} else {}
      ensures Valid()
      ensures outcome == if station in streams then Ok else AssertionFailed
      ensures station in streams ==> streams[station].items == old(streams[station].items) + [data]
      ensures forall s :: s in streams && s != station ==> streams[s].items == old(streams[s].items)
      ensures streams == old(streams) && replies == old(replies) && waiting == old(waiting)
    {
      if station !in streams {
        return AssertionFailed;
      }
      streams[station].Put(data);
      outcome := Ok;
    }

    /** Pushes `data` to every registered session. */
    method PutAll(data: Json)
      requires Valid()
      modifies streams.Values
      ensures Valid()
      ensures forall s :: s in streams ==> streams[s].items == old(streams[s].items) + [data]
      ensures streams == old(streams) && replies == old(replies) && waiting == old(waiting)
    {
      var todo := streams.Values;
      while todo != {}
        invariant todo <= streams.Values
        invariant forall q :: q in streams.Values && q in todo ==> q.items == old(q.items)
        invariant forall q :: q in streams.Values && q !in todo ==> q.items == old(q.items) + [data]
        decreases todo
      {
        var q :| q in todo;
        q.Put(data);
        todo := todo - {q};
      }
      forall s | s in streams
        ensures streams[s].items == old(streams[s].items) + [data]
      {
        assert streams[s] in streams.Values;
      }
    }

    /**
     * The first half of `ask_question`: push the question to the station's
     * session and raise the flag; the call then waits on the reply slot.
     */
    method AskBegin(station: StationId, question: Json) returns (outcome: Outcome)
      requires Valid()
      modifies this, if station in streams then {streams[station]} else {}
      ensures Valid()
      ensures streams == old(streams) && replies == old(replies)
      ensures outcome == if station in old(streams) then Ok else AssertionFailed
      ensures outcome == Ok ==>
                && streams[station].items == old(streams[station].items) + [AskQuestionEvent(question)]
                && waiting == old(waiting)[station := true]
                && askers == old(askers)[station := old(askers)[station] + 1]
      ensures outcome != Ok ==> waiting == old(waiting) && askers == old(askers)
      ensures forall s :: s in streams && s != station ==> streams[s].items == old(streams[s].items)
      ensures old(NoOrphanReply()) ==> NoOrphanReply()
    {
      outcome := Put(station, AskQuestionEvent(question));
      if outcome == Ok {
        waiting := waiting[station := true];
        askers := askers[station := askers[station] + 1];
      }
    }

    /**
     * The second half of `ask_question`, once the slot holds a value: take
     * it, lower the flag and return it.
     */
    method AskComplete(station: StationId) returns (reply: Reply)
      requires Valid()
      requires station in replies && replies[station].Some? && askers[station] > 0
      modifies this
      ensures Valid()
      ensures reply == old(replies[station].value)
      ensures replies == old(replies)[station := None]
      ensures waiting == old(waiting)[station := false]
      ensures askers == old(askers)[station := old(askers[station]) - 1]
      ensures streams == old(streams)
      ensures old(NoOrphanReply()) ==> NoOrphanReply()
    {
      reply := replies[station].value;
      replies := replies[station := None];
      waiting := waiting[station := false];
      askers := askers[station := askers[station] - 1];
    }

    /**
     * `put_reply`: the station's answer goes into its slot. An unknown
     * station is a missing key; a full slot or a lowered flag fails an
     * assertion; either way nothing changes.
     */
    method PutReply(station: StationId, reply: Json) returns (outcome: Outcome)
      requires Valid()
      modifies this
      ensures Valid()
      ensures outcome == if station !in old(replies) then KeyMissing
                         else if old(replies[station]).Some? || !old(waiting[station]) then AssertionFailed
                         else Ok
      ensures replies == if outcome == Ok then old(replies)[station := Some(Answer(reply))] else old(replies)
      ensures waiting == old(waiting) && streams == old(streams) && askers == old(askers)
      ensures old(NoOrphanReply()) ==> NoOrphanReply()
    {
      if station !in replies {
        return KeyMissing;
      }
      if replies[station].Some? || !waiting[station] {
        return AssertionFailed;
      }
      replies := replies[station := Some(Answer(reply))];
      outcome := Ok;
    }

    /**
     * The first part of `get`: a fresh queue becomes the station's current
     * session, the slot and flag are created when absent and kept otherwise,
     * and `owed` says whether the flag was found set.
     */
    method Open(station: StationId) returns (q: Queue, owed: bool)
      requires Valid()
      modifies this
      ensures Valid() && fresh(q) && q.items == []
      ensures streams == old(streams)[station := q]
      ensures replies == if station in old(replies) then old(replies) else old(replies)[station := None]
      ensures waiting == if station in old(waiting) then old(waiting) else old(waiting)[station := false]
      ensures askers == if station in old(askers) then old(askers) else old(askers)[station := 0]
      ensures owed == waiting[station]
      ensures old(NoOrphanReply()) ==> NoOrphanReply()
    {
      if station !in replies {
        replies, waiting, askers := replies[station := None], waiting[station := false], askers[station := 0];
      }
      assert old(NoOrphanReply()) ==> NoOrphanReply();
      q := new Queue(station);
      streams := streams[station := q];
      owed := waiting[station];
    }

    /**
     * The sentinel step of `get` as written: put the broken sentinel into the
     * slot, which waits while the slot is full, then lower the flag.
     */
    method DeliverSentinel(station: StationId)
      requires Valid()
      requires station in replies && replies[station] == None
      modifies this
      ensures Valid()
      ensures replies == old(replies)[station := Some(Broken)]
      ensures waiting == old(waiting)[station := false]
      ensures streams == old(streams) && askers == old(askers)
    {
      replies := replies[station := Some(Broken)];
      waiting := waiting[station := false];
    }

    /**
     * The last part of `get`: the keepalive goes into the new queue, then,
     * when the pending-transaction signal's first result is true, the TEF
     * warning and the clear-sale event go to the station's current session.
     */
    method Greet(station: StationId, q: Queue, results: seq<(Receiver, bool)>)
      requires Valid() && station in streams && streams[station] == q
      modifies q
      ensures Valid()
      ensures q.items == old(q.items) + Greeting(results)
      ensures streams == old(streams) && replies == old(replies) && waiting == old(waiting)
    {
      var outcome := Put(station, Keepalive);
      if HasCanceled(results) {
        outcome := Put(station, TefWarning);
        outcome := Put(station, ClearSale);
        assert old(q.items) + [Keepalive] + [TefWarning] + [ClearSale] == old(q.items) + Greeting(results);
      }
    }

    /**
     * `get` with the sentinel step corrected: the sentinel is delivered only
     * when the flag is set and the slot is empty, so it never waits and never
     * outlives the question it answers.
     */
    method Register(station: StationId, results: seq<(Receiver, bool)>) returns (q: Queue)
      requires Valid()
      modifies this
      ensures Valid() && fresh(q)
      ensures streams == old(streams)[station := q]
      ensures q.items == Greeting(results)
      ensures forall s :: s in old(streams) && s != station ==> streams[s] == old(streams[s])
      ensures station in replies && station in waiting
      ensures replies[station] == if station !in old(replies) then None
                                  else if old(waiting[station]) && old(replies[station]) == None then Some(Broken)
                                  else old(replies[station])
      ensures waiting[station] == if station !in old(waiting) then false
                                  else if old(waiting[station]) && old(replies[station]) == None then false
                                  else old(waiting[station])
      ensures replies == old(replies)[station := replies[station]]
      ensures waiting == old(waiting)[station := waiting[station]]
      ensures askers == if station in old(askers) then old(askers) else old(askers)[station := 0]
      ensures old(NoOrphanReply()) ==> NoOrphanReply()
    {
      var owed;
      q, owed := Open(station);
      if owed && replies[station] == None {
        DeliverSentinel(station);
      }
      Greet(station, q, results);
    }

    /**
     * `_loop` over its first `n` items: each item taken from the session's
     * queue is yielded as one frame, in queue order. The loop waits on an
     * empty queue, so the model requires the items to be there.
     */
    method Loop(stream: Queue, n: nat) returns (frames: seq<string>)
      requires n <= |stream.items|
      modifies stream
      ensures frames == FramesOf(old(stream.items)[..n])
      ensures stream.items == old(stream.items)[n..]
    {
      ghost var items := stream.items;
      frames := [];
      var i := 0;
      while i < n
        invariant 0 <= i <= n
        invariant stream.items == items[i..]
        invariant frames == FramesOf(items[..i])
      {
        var data := stream.Get();
        frames := frames + ["data: " + Serialize(data) + "\n\n"];
        i := i + 1;
        assert frames == FramesOf(items[..i]);
      }
    }
  }
}

/**
 * The text/event-stream framing of the stream endpoint. The serving loop
 * yields one frame per item it takes from its queue: "data: ", the item's
 * JSON text and a blank line. The reader below recovers the JSON texts from
 * the concatenated frames, which shows that every item arrives as exactly one
 * event, in queue order.
 */
module Sse {
  import opened Wrappers
  import opened JsonText

  /** No character of `p` ends a line of the event stream. */
  predicate SingleLine(p: string) {
    forall i :: 0 <= i < |p| ==> p[i] != '\n' && p[i] != '\r'
  }

  /** One frame: a `data` field holding `payload`, then the blank line that dispatches it. */
  function Frame(payload: string): string {
    "data: " + payload + "\n\n"
  }

  /** The frames the serving loop yields for `items`, one per item, in order. */
  function FramesOf(items: seq<Json>): seq<string> {
    seq(|items|, i requires 0 <= i < |items| => Frame(Serialize(items[i])))
  }

  /** The JSON texts of `items`, in order. */
  function Payloads(items: seq<Json>): seq<string> {
    seq(|items|, i requires 0 <= i < |items| => Serialize(items[i]))
  }

  /** The response body: the frames written one after another. */
  function Join(frames: seq<string>): string {
    if frames == [] then "" else frames[0] + Join(frames[1..])
  }

  /** The first line break at or after `from`, if any. */
  function LineEnd(s: string, from: nat): (r: Option<nat>)
    requires from <= |s|
    ensures r.Some? ==> from <= r.value < |s| && (s[r.value] == '\n' || s[r.value] == '\r')
    ensures r.Some? ==> forall j :: from <= j < r.value ==> s[j] != '\n' && s[j] != '\r'
    ensures r.None? ==> forall j :: from <= j < |s| ==> s[j] != '\n' && s[j] != '\r'
    decreases |s| - from
  {
    if from == |s| then None
    else if s[from] == '\n' || s[from] == '\r' then Some(from)
    else LineEnd(s, from + 1)
  }

  /**
   * Reads an event-stream text made of single-line `data` frames back into
   * their payloads; None when the text is not such a sequence of frames.
   */
  function ParseFrames(text: string): Option<seq<string>>
    decreases |text|
  {
    if text == [] then Some([])
    else if |text| < 6 || text[..6] != "data: " then None
    else
      match LineEnd(text, 6)
      case None => None
      case Some(k) =>
        if text[k] == '\n' && k + 1 < |text| && text[k + 1] == '\n' then
          match ParseFrames(text[k + 2..])
          case None => None
          case Some(rest) => Some([text[6..k]] + rest)
        else None
  }

  /** Printable JSON text never breaks a line. */
  lemma PrintableIsSingleLine(p: string)
    requires Printable(p)
    ensures SingleLine(p)
  {
    forall i | 0 <= i < |p| ensures p[i] != '\n' && p[i] != '\r' {
      assert ' ' <= p[i];
    }
  }

  /** The reader takes a single-line payload's frame off the front of a text and goes on with the rest. */
  lemma ParseFrame(payload: string, rest: string)
    requires SingleLine(payload)
    ensures ParseFrames(Frame(payload) + rest)
         == match ParseFrames(rest)
            case None => None
            case Some(ps) => Some([payload] + ps)
  {
    var text := Frame(payload) + rest;
    var k := 6 + |payload|;
    assert text[..6] == "data: ";
    assert text[6..k] == payload;
    assert text[k] == '\n' && text[k + 1] == '\n';
    assert LineEnd(text, 6) == Some(k) by {
      LineEndAt(text, 6, k);
    }
    assert text[k + 2..] == rest;
  }

  /** Where the first line break after `from` is, when it is known to be at `k`. */
  lemma {:induction false} LineEndAt(s: string, from: nat, k: nat)
    requires from <= k < |s| && (s[k] == '\n' || s[k] == '\r')
    requires forall j :: from <= j < k ==> s[j] != '\n' && s[j] != '\r'
    ensures LineEnd(s, from) == Some(k)
    decreases k - from
  {
    if from < k {
      LineEndAt(s, from + 1, k);
    }
  }

  /** Taking the first item off a queue takes its frame and its payload off the front. */
  lemma Unfold(items: seq<Json>)
    requires items != []
    ensures Join(FramesOf(items)) == Frame(Serialize(items[0])) + Join(FramesOf(items[1..]))
    ensures Payloads(items) == [Serialize(items[0])] + Payloads(items[1..])
  {
    assert FramesOf(items)[1..] == FramesOf(items[1..]);
  }

  /**
   * Reading back what the serving loop wrote for `items` gives their JSON
   * texts in queue order: one event per item, none split, merged or lost.
   */
  lemma {:induction false} ReadBack(items: seq<Json>)
    ensures ParseFrames(Join(FramesOf(items))) == Some(Payloads(items))
  {
    if items == [] {
      assert FramesOf(items) == [] && Payloads(items) == [];
    } else {
      var head, tail := Serialize(items[0]), items[1..];
      Unfold(items);
      ReadBack(tail);
      PrintableIsSingleLine(head);
      ParseFrame(head, Join(FramesOf(tail)));
      assert ParseFrames(Join(FramesOf(items))) == Some([head] + Payloads(tail));
    }
  }
}

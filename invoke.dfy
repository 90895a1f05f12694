/** `invoke_bedrock_agent`: the agent id guard and the assembly of the streamed completion. */
module Invoke {

  import opened Options
  import opened Outcomes
  import Utf8

  const MaxAgentIdLen := 128

  /** One event of the completion stream. */
  datatype Event =
    /** An event with a `chunk`; a chunk without `bytes` has an empty payload. */
    | Chunk(payload: seq<Utf8.byte>)
    /** Any event without a `chunk`. */
    | Other
    /** Reading the next event raised an exception. */
    | StreamError

  /** What the backend does with one call: raises, or returns a completion stream. */
  datatype Reply = Raised | Stream(events: seq<Event>)

  /** The arguments of one `invoke_agent` call. */
  datatype Invocation = Invocation(agentId: string, sessionId: string, inputText: string)

  /**
   * The inference backend: the reply to the n-th call (counted from 0 over
   * the lifetime of the model) with the given arguments.
   */
  type Backend = (nat, Invocation) -> Reply

  /** The guard run before any call: a non-empty agent id of at most 128 code points. */
  predicate AgentIdOk(agentId: string) {
    agentId != "" && |agentId| <= MaxAgentIdLen
  }

  /** What one event adds to the response: its decoded payload, or nothing. */
  function EventText(e: Event): string {
    match e
    case Chunk(payload) =>
      if payload == [] then ""
      else (match Utf8.Decode(payload)
        case Some(t) => t
        case None => "")
    case _ => ""
  }

  /**
   * The text assembled from a stream, or None when reading the stream raised:
   * the in-order concatenation of the decodings of the chunk payloads, where
   * events without a chunk and chunks that fail to decode contribute nothing.
   */
  function Assembled(events: seq<Event>): Option<string> {
    if events == [] then Some("")
    else
      var n := |events| - 1;
      match Assembled(events[..n])
      case None => None
      case Some(prefix) => if events[n].StreamError? then None else Some(prefix + EventText(events[n]))
  }

  /** The chunk payloads of a stream, concatenated. */
  function Payloads(events: seq<Event>): seq<Utf8.byte> {
    if events == [] then []
    else
      var n := |events| - 1;
      Payloads(events[..n]) + (if events[n].Chunk? then events[n].payload else [])
  }

  /** The loop `for event in response.get('completion', []): ... result += ...`. */
  method AssembleCompletion(events: seq<Event>) returns (result: Option<string>)
    ensures result == Assembled(events)
  {
    var text := "";
    var i := 0;
    while i < |events|
      invariant 0 <= i <= |events|
      invariant Assembled(events[..i]) == Some(text)
    {
      assert events[..i + 1][..i] == events[..i];
      var event := events[i];
      if event.StreamError? {
        assert Assembled(events[..i + 1]) == None;
        NoneStaysNone(events, i + 1);
        return None;
      }
      var piece := "";
      if event.Chunk? {
        var payload := event.payload;
        if payload != [] {
          var decoded := Utf8.Decode(payload);
          if decoded.Some? {
            piece := decoded.value;
          }
        }
      }
      assert piece == EventText(events[..i + 1][i]);
      text := text + piece;
      i := i + 1;
    }
    assert events[..i] == events;
    result := Some(text);
  }

  /** Once the stream has raised, the rest of it does not matter. */
  lemma {:induction false} NoneStaysNone(events: seq<Event>, k: nat)
    requires k <= |events| && Assembled(events[..k]) == None
    ensures Assembled(events) == None
    decreases |events| - k
  {
    if k < |events| {
      assert events[..k + 1][..k] == events[..k];
      NoneStaysNone(events, k + 1);
    } else {
      assert events[..k] == events;
    }
  }

  /**
   * No byte is lost when every chunk decodes on its own and the stream does
   * not raise: the response is exactly the UTF-8 text of all payloads together.
   */
  lemma {:induction false} AssembledKeepsAllBytes(events: seq<Event>)
    requires forall i :: 0 <= i < |events| ==> !events[i].StreamError?
    requires forall i :: 0 <= i < |events| ==> events[i].Chunk? ==> Utf8.Decode(events[i].payload).Some?
    ensures Assembled(events).Some?
    ensures Utf8.Encode(Assembled(events).value) == Payloads(events)
  {
    if events != [] {
      var n := |events| - 1;
      assert forall i :: 0 <= i < n ==> events[..n][i] == events[i];
      AssembledKeepsAllBytes(events[..n]);
      var prefix := Assembled(events[..n]).value;
      var last := EventText(events[n]);
      assert Assembled(events) == Some(prefix + last);
      Utf8.EncodeAppend(prefix, last);
      var tail := if events[n].Chunk? then events[n].payload else [];
      assert Payloads(events) == Payloads(events[..n]) + tail;
      if events[n].Chunk? && tail != [] {
        Utf8.EncodeDecode(tail);
        assert Utf8.Encode(last) == tail;
      }
    }
  }

  /**
   * A character whose bytes are split over two chunks is lost: neither half
   * decodes on its own, so both chunks are skipped (here "é", C3 A9).
   */
  lemma SplitCharacterIsDropped()
    ensures Assembled([Chunk([0xC3]), Chunk([0xA9])]) == Some("")
    ensures Utf8.Decode(Payloads([Chunk([0xC3]), Chunk([0xA9])])) == Some("é")
  {
    var first: seq<Utf8.byte> := [0xC3];
    var second: seq<Utf8.byte> := [0xA9];
    var events := [Chunk(first), Chunk(second)];
    assert Utf8.Decode(first) == None;
    assert Utf8.Decode(second) == None;
    var empty: string := "";
    assert empty + empty == empty;
    var one := events[..1];
    assert one == [Chunk(first)] && one[..0] == [];
    assert Assembled(one[..0]) == Some("");
    assert !one[0].StreamError? && EventText(one[0]) == "";
    assert Assembled(one) == Some(empty);
    assert events[..1][..0] == [] && events[..1][0] == Chunk(first);
    assert Payloads(one) == first;
    assert Payloads(events) == first + second;
    var bs: seq<Utf8.byte> := [0xC3, 0xA9];
    assert first + second == bs;
    assert (3 * 64 + 41) as char == 'é';
    assert Utf8.DecodeFirst(bs) == Some(('é', 2));
    assert Utf8.Decode(bs[2..]) == Some([]);
    assert Utf8.Decode(bs) == Some(['é'] + []);
    assert events[1] == Chunk(second) && EventText(events[1]) == "";
    assert |events| - 1 == 1 && events[..|events| - 1] == one;
    assert Assembled(events) == Some(empty);
    assert ['é'] + [] == "é";
    assert Payloads(events) == bs;
  }

  /**
   * The result of a call that passed the guard: 200 with the assembled text,
   * or 500 with a generic message and the error id when the call or the stream raised.
   */
  function CallOutcome(reply: Reply, errorId: string): (o: Outcome)
    ensures o.statusCode == 200 <==> reply.Stream? && Assembled(reply.events).Some?
    ensures o.statusCode == 200 ==> o.body == Text(Assembled(reply.events).value)
    ensures o.statusCode != 200 ==> o == Outcome(500, Error("Bedrock service error", Some(errorId)), false, None)
  {
    match reply
    case Raised => Outcome(500, Error("Bedrock service error", Some(errorId)), false, None)
    case Stream(events) =>
      match Assembled(events)
      case None => Outcome(500, Error("Bedrock service error", Some(errorId)), false, None)
      case Some(text) => Outcome(200, Text(text), false, None)
  }

  /** The 400 result for an agent id that fails the guard. */
  const InvalidAgentId := BadRequest("Invalid agent_id", None)
}

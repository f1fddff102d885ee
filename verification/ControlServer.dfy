/** The reassembly loop of one control connection: receives of any size in, one response per complete
    message out. */
module ControlServer {
  import opened Lists
  import opened Wire
  import opened Protocol
  import opened StateResponses

  /** What one complete message asks for. */
  datatype Event = Dispatched(command: Command) | Malformed

  /** Answers a command, given all commands of the connection up to and including it. */
  type Handler = seq<Command> -> seq<byte>

  predicate Complete(m: seq<byte>) {
    |m| >= HEADER_SIZE && |m| == HEADER_SIZE + ReadUint16(m, 1)
  }

  /** Not even one whole message. */
  predicate Incomplete(b: seq<byte>) {
    |b| < HEADER_SIZE || |b| < HEADER_SIZE + ReadUint16(b, 1)
  }

  function EventFor(decoded: Option<Command>): Event {
    if decoded == None then Malformed else Dispatched(decoded.value)
  }

  function EventOf(m: seq<byte>): Event
    requires |m| >= HEADER_SIZE
  {
    EventFor(DecodeCommand(m[0], m[HEADER_SIZE..]))
  }

  /** One pass over a whole byte stream: an event per message, and the bytes left over. */
  function Parse(b: seq<byte>): (r: (seq<Event>, seq<byte>))
    ensures Incomplete(r.1) && |r.1| <= |b|
  {
    if Incomplete(b) then ([], b)
    else
      var total := HEADER_SIZE + ReadUint16(b, 1);
      var (events, rest) := Parse(b[total..]);
      ([EventOf(b[..total])] + events, rest)
  }

  /** The bytes that arrive before the connection ends: up to the first empty receive. */
  function Stream(receives: seq<seq<byte>>): seq<byte> {
    if receives == [] || receives[0] == [] then [] else receives[0] + Stream(receives[1..])
  }

  function Commands(events: seq<Event>): seq<Command> {
    if events == [] then []
    else
      var last := events[|events| - 1];
      Commands(events[..|events| - 1]) + if last.Dispatched? then [last.command] else []
  }

  const MALFORMED_TEXT: seq<byte> := [
    0x6D, 0x61, 0x6C, 0x66, 0x6F, 0x72, 0x6D, 0x65, 0x64, 0x20, 0x6F, 0x72, 0x20, 0x75, 0x6E, 0x6B, 0x6E, 0x6F, 0x77,
    0x6E, 0x20, 0x63, 0x6F, 0x6D, 0x6D, 0x61, 0x6E, 0x64]
  const NO_HANDLER_TEXT: seq<byte> := [
    0x6E, 0x6F, 0x20, 0x63, 0x6F, 0x6D, 0x6D, 0x61, 0x6E, 0x64, 0x20, 0x68, 0x61, 0x6E, 0x64, 0x6C, 0x65, 0x72, 0x20,
    0x72, 0x65, 0x67, 0x69, 0x73, 0x74, 0x65, 0x72, 0x65, 0x64]

  /** The bytes spell the text. */
  predicate Spells(b: seq<byte>, text: string) {
    |b| == |text| && forall i | 0 <= i < |b| :: b[i] == text[i] as int
  }

  lemma ErrorTexts()
    ensures Spells(MALFORMED_TEXT, "malformed or unknown command")
    ensures Spells(NO_HANDLER_TEXT, "no command handler registered")
  {
  }

  /** The response to the last event of a connection so far. */
  function Reply(handler: Option<Handler>, events: seq<Event>): seq<byte>
    requires events != []
  {
    if events[|events| - 1] == Malformed then EncodeErrorResponse(MALFORMED_TEXT)
    else if handler.Some? then handler.value(Commands(events))
    else EncodeErrorResponse(NO_HANDLER_TEXT)
  }

  function Replies(handler: Option<Handler>, events: seq<Event>): (r: seq<seq<byte>>)
    ensures |r| == |events|
  {
    if events == [] then []
    else Replies(handler, events[..|events| - 1]) + [Reply(handler, events)]
  }

  lemma StartOfConnection(receives: seq<seq<byte>>, handler: Option<Handler>)
    ensures Parse([]) == ([], [])
    ensures [] + Stream(receives[0..]) == Stream(receives)
    ensures Replies(handler, []) == [] && Commands([]) == []
  {
    assert receives[0..] == receives;
  }

  lemma StreamStep(receives: seq<seq<byte>>)
    ensures receives == [] || receives[0] == [] ==> Stream(receives) == []
    ensures receives != [] && receives[0] != [] ==> Stream(receives) == receives[0] + Stream(receives[1..])
  {
  }

  lemma IncompleteParse(b: seq<byte>)
    requires Incomplete(b)
    ensures Parse(b) == ([], b)
  {
  }

  lemma CompleteParse(b: seq<byte>)
    requires !Incomplete(b)
    ensures var total := HEADER_SIZE + ReadUint16(b, 1);
            var event := EventFor(DecodeCommand(b[0], b[HEADER_SIZE..total]));
            Parse(b) == ([event] + Parse(b[total..]).0, Parse(b[total..]).1)
  {
    hide DecodeCommand, ReadUint16, EventFor;
    var total := HEADER_SIZE + ReadUint16(b, 1);
    assert b[..total][HEADER_SIZE..] == b[HEADER_SIZE..total];
  }

  lemma HeaderOf(b: seq<byte>)
    ensures TryReadHeader(b) == None || |b| < HEADER_SIZE + TryReadHeader(b).value.payloadLength <==> Incomplete(b)
    ensures !Incomplete(b) ==> TryReadHeader(b) == Some(Header(b[0], ReadUint16(b, 1)))
  {
    hide ReadUint16;
  }

  lemma ParseStep(b: seq<byte>)
    ensures var header := TryReadHeader(b);
            if header == None || |b| < HEADER_SIZE + header.value.payloadLength then Parse(b) == ([], b)
            else
              var total := HEADER_SIZE + header.value.payloadLength;
              var event := EventFor(DecodeCommand(header.value.opcode, b[HEADER_SIZE..total]));
              Parse(b) == ([event] + Parse(b[total..]).0, Parse(b[total..]).1)
  {
    HeaderOf(b);
    hide *;
    if Incomplete(b) {
      IncompleteParse(b);
    } else {
      CompleteParse(b);
    }
  }

  /** A whole message in front of a stream is parsed off. */
  lemma MessageIsParsed(m: seq<byte>, rest: seq<byte>)
    requires Complete(m)
    ensures Parse(m + rest) == ([EventOf(m)] + Parse(rest).0, Parse(rest).1)
  {
    hide EventOf;
    var b := m + rest;
    assert ReadUint16(b, 1) == ReadUint16(m, 1);
    assert b[..|m|] == m && b[|m|..] == rest;
  }

  /** A stream that is not incomplete starts with a whole message. */
  lemma FirstMessage(b: seq<byte>) returns (total: nat)
    requires !Incomplete(b)
    ensures HEADER_SIZE <= total <= |b| && Complete(b[..total])
    ensures Parse(b) == ([EventOf(b[..total])] + Parse(b[total..]).0, Parse(b[total..]).1)
  {
    hide EventOf;
    total := HEADER_SIZE + ReadUint16(b, 1);
    assert ReadUint16(b[..total], 1) == ReadUint16(b, 1);
    MessageIsParsed(b[..total], b[total..]);
    assert b[..total] + b[total..] == b;
  }

  /** Later bytes never change the events already parsed: they only complete the bytes left over. */
  lemma {:induction false} ParseExtends(b: seq<byte>, more: seq<byte>)
    ensures var (events, rest) := Parse(b);
            Parse(b + more) == (events + Parse(rest + more).0, Parse(rest + more).1)
    decreases |b|
  {
    hide EventOf, Parse, Complete, Incomplete;
    if Incomplete(b) {
      IncompleteParse(b);
      assert [] + Parse(b + more).0 == Parse(b + more).0;
    } else {
      var total := FirstMessage(b);
      var first, later := b[..total], b[total..];
      ParseExtends(later, more);
      assert b + more == first + (later + more);
      MessageIsParsed(first, later + more);
      var (events, rest) := Parse(later);
      assert ([EventOf(first)] + events) + Parse(rest + more).0 == [EventOf(first)] + (events + Parse(rest + more).0);
    }
  }

  lemma EventStep(handler: Option<Handler>, events: seq<Event>, decoded: Option<Command>)
    ensures var later := events + [EventFor(decoded)];
            && Replies(handler, later) == Replies(handler, events) + [Reply(handler, later)]
            && Commands(later) == Commands(events) + (if decoded == None then [] else [decoded.value])
            && Reply(handler, later) == if decoded == None then EncodeErrorResponse(MALFORMED_TEXT)
                                        else if handler.Some? then handler.value(Commands(events) + [decoded.value])
                                        else EncodeErrorResponse(NO_HANDLER_TEXT)
  {
    hide EncodeErrorResponse;
    assert (events + [EventFor(decoded)])[..|events|] == events;
  }

  /** Serves a connection until it ends: the responses sent, the commands handed to the handler, and
      the buffer that is dropped when the connection closes. */
  method HandleClient(receives: seq<seq<byte>>, handler: Option<Handler>)
    returns (responses: seq<seq<byte>>, commands: seq<Command>, buffer: seq<byte>)
    ensures buffer == Parse(Stream(receives)).1
    ensures responses == Replies(handler, Parse(Stream(receives)).0)
    ensures handler.Some? ==> commands == Commands(Parse(Stream(receives)).0)
    ensures handler == None ==> commands == []
  {
    hide *;
    responses, commands, buffer := [], [], [];
    ghost var events: seq<Event> := [];
    ghost var received: seq<byte> := [];
    StartOfConnection(receives, handler);
    var next := 0;
    while next < |receives|
      invariant next <= |receives|
      invariant Parse(received) == (events, buffer)
      invariant Stream(receives) == received + Stream(receives[next..])
      invariant responses == Replies(handler, events)
      invariant commands == if handler.Some? then Commands(events) else []
    {
      var chunk := receives[next];
      StreamStep(receives[next..]);
      if chunk == [] {
        break;
      }
      ParseExtends(received, chunk);
      assert received + (chunk + Stream(receives[next + 1..])) == (received + chunk) + Stream(receives[next + 1..]);
      assert receives[next..][1..] == receives[next + 1..];
      received := received + chunk;
      buffer := buffer + chunk;
      next := next + 1;
      while true
        invariant Parse(received) == (events + Parse(buffer).0, Parse(buffer).1)
        invariant responses == Replies(handler, events)
        invariant commands == if handler.Some? then Commands(events) else []
        decreases |buffer|
      {
        ParseStep(buffer);
        var header := TryReadHeader(buffer);
        if header == None {
          break;
        }
        var total := HEADER_SIZE + header.value.payloadLength;
        if |buffer| < total {
          break;
        }
        var decoded := DecodeCommand(header.value.opcode, buffer[HEADER_SIZE..total]);
        var response;
        if decoded == None {
          response := EncodeErrorResponse(MALFORMED_TEXT);
        } else if handler.Some? {
          commands := commands + [decoded.value];
          response := handler.value(commands);
        } else {
          response := EncodeErrorResponse(NO_HANDLER_TEXT);
        }
        responses := responses + [response];
        ghost var event := EventFor(decoded);
        EventStep(handler, events, decoded);
        assert events + ([event] + Parse(buffer[total..]).0) == (events + [event]) + Parse(buffer[total..]).0;
        events := events + [event];
        buffer := buffer[total..];
      }
      assert events + [] == events;
    }
    StreamStep(receives[next..]);
    assert received + [] == received;
  }

  // ------------------------------------------------------ what a client can rely on

  /** How a stream is cut into receives does not matter. */
  lemma {:induction false} StreamIsConcatenation(receives: seq<seq<byte>>)
    requires [] !in receives
    ensures Stream(receives) == Flatten(receives)
  {
    if receives != [] {
      StreamIsConcatenation(receives[1..]);
    }
  }

  function Events(messages: seq<seq<byte>>): (events: seq<Event>)
    requires forall m | m in messages :: Complete(m)
    ensures |events| == |messages|
    ensures forall i | 0 <= i < |messages| :: Complete(messages[i]) && events[i] == EventOf(messages[i])
  {
    if messages == [] then []
    else
      assert Complete(messages[0]);
      [EventOf(messages[0])] + Events(messages[1..])
  }

  /** A stream of whole messages with an incomplete tail gives one event a message, in order, and the
      tail is left over. */
  lemma {:induction false} MessagesAreParsed(messages: seq<seq<byte>>, tail: seq<byte>)
    requires forall m | m in messages :: Complete(m)
    requires Incomplete(tail)
    ensures Parse(Flatten(messages) + tail) == (Events(messages), tail)
  {
    if messages == [] {
      hide EventOf;
      assert Flatten(messages) + tail == tail;
    } else {
      assert Complete(messages[0]);
      hide EventOf, Parse, Complete, Incomplete;
      MessagesAreParsed(messages[1..], tail);
      var rest := Flatten(messages[1..]) + tail;
      assert Flatten(messages) + tail == messages[0] + rest;
      MessageIsParsed(messages[0], rest);
    }
  }

  lemma NoMessages()
    ensures Events([]) == [] && Flatten<byte>([]) == []
  {
  }

  lemma EventsStep(m: seq<byte>, later: seq<seq<byte>>)
    requires Complete(m) && forall n | n in later :: Complete(n)
    ensures forall n | n in [m] + later :: Complete(n)
    ensures Events([m] + later) == [EventOf(m)] + Events(later)
    ensures Flatten([m] + later) == m + Flatten(later)
  {
    hide EventOf, Complete;
    assert ([m] + later)[1..] == later;
  }

  /** Every stream is such a row of whole messages with an incomplete tail. */
  lemma {:induction false} StreamIsMessages(b: seq<byte>) returns (messages: seq<seq<byte>>)
    ensures forall m | m in messages :: Complete(m)
    ensures b == Flatten(messages) + Parse(b).1
    ensures Events(messages) == Parse(b).0
    decreases |b|
  {
    hide EventOf, Parse, Complete, Incomplete, Events, Flatten;
    if Incomplete(b) {
      IncompleteParse(b);
      NoMessages();
      messages := [];
      assert [] + b == b;
    } else {
      var total := FirstMessage(b);
      var later := StreamIsMessages(b[total..]);
      messages := [b[..total]] + later;
      EventsStep(b[..total], later);
      assert b == b[..total] + b[total..];
    }
  }

  function Encodings(requests: seq<Request>): seq<seq<byte>> {
    seq(|requests|, i requires 0 <= i < |requests| => EncodeRequest(requests[i]))
  }

  /** End to end: requests a client may send, encoded one behind the other and received in any
      non-empty pieces, reach the handler as exactly the commands they ask for, in order, and nothing
      is left over. */
  lemma RequestsAreDispatched(requests: seq<Request>, receives: seq<seq<byte>>)
    requires forall r | r in requests :: Sendable(r)
    requires [] !in receives && Flatten(receives) == Flatten(Encodings(requests))
    ensures Parse(Stream(receives)) == (seq(|requests|, i requires 0 <= i < |requests| => Dispatched(CommandOf(requests[i]))), [])
  {
    hide Flatten, Parse, Sendable, EncodeRequest, CommandOf, DecodeCommand;
    StreamIsConcatenation(receives);
    var messages := Encodings(requests);
    forall i | 0 <= i < |requests|
      ensures Complete(messages[i]) && EventOf(messages[i]) == Dispatched(CommandOf(requests[i]))
    {
      RequestArrivesIff(requests[i]);
    }
    MessagesAreParsed(messages, []);
    assert Flatten(messages) + [] == Flatten(messages);
    assert Events(messages) == seq(|requests|, i requires 0 <= i < |requests| => Dispatched(CommandOf(requests[i])));
  }
}

/** The relay loop of a gateway tunnel (`proxy` in `src/tunnel.rs`) and the hand-off of the bytes the
    header reader had already taken. */
module Relay {
  import opened Wrappers
  import opened Text
  import opened Utf8
  import opened HeaderReaders
  import opened HttpProxy

  datatype Message =
    | Binary(payload: seq<byte>)
    | TextFrame(text: string)
    | Ping(payload: seq<byte>)
    | Pong(payload: seq<byte>)
    | Frame
    | Close

  /** What one branch of the `select!` comes with; a read of no bytes is the client's end of stream. */
  datatype Event =
    | ClientRead(bytes: seq<byte>)
    | ClientFailed
    | Received(message: Message)
    | GatewayFailed
    | GatewayClosed

  /** How the write it causes, if any, ends: all of it, or a failure after some of the bytes. */
  datatype Write = Done | Broken(after: nat)

  datatype Turn = Turn(event: Event, write: Write)

  datatype End = Running | Finished | Failure

  // ---- The streams of a run ----

  /** What came in so far: the client's bytes, the bytes for the client, and the pings. */
  datatype Came = Came(client: seq<byte>, gateway: seq<byte>, pings: seq<seq<byte>>)

  function FromClient(event: Event): seq<byte> {
    if event.ClientRead? then event.bytes else []
  }

  function ForClient(event: Event): seq<byte> {
    match event
    case Received(Binary(payload)) => payload
    case Received(TextFrame(text)) => Encode(text)
    case _ => []
  }

  function PingOf(event: Event): seq<seq<byte>> {
    match event
    case Received(Ping(payload)) => [payload]
    case _ => []
  }

  function With(came: Came, event: Event): Came {
    Came(came.client + FromClient(event), came.gateway + ForClient(event), came.pings + PingOf(event))
  }

  /** What the first `n` turns brought. */
  function CameIn(turns: seq<Turn>, n: nat): Came
    requires n <= |turns|
  {
    if n == 0 then Came([], [], []) else With(CameIn(turns, n - 1), turns[n - 1].event)
  }

  function BinaryOf(message: Message): seq<byte> {
    if message.Binary? then message.payload else []
  }

  function PongOf(message: Message): seq<seq<byte>> {
    if message.Pong? then [message.payload] else []
  }

  function Binaries(sent: seq<Message>): seq<byte> {
    if sent == [] then [] else Binaries(sent[..|sent| - 1]) + BinaryOf(sent[|sent| - 1])
  }

  function Pongs(sent: seq<Message>): seq<seq<byte>> {
    if sent == [] then [] else Pongs(sent[..|sent| - 1]) + PongOf(sent[|sent| - 1])
  }

  lemma SendOne(sent: seq<Message>, message: Message)
    ensures Binaries(sent + [message]) == Binaries(sent) + BinaryOf(message)
    ensures Pongs(sent + [message]) == Pongs(sent) + PongOf(message)
  {
    assert (sent + [message])[..|sent|] == sent;
  }

  // ---- One turn ----

  /** What one turn sends to the gateway and writes to the client, and whether the loop goes on. */
  datatype Effect = Effect(frames: seq<Message>, bytes: seq<byte>, end: End)

  predicate Ends(event: Event) {
    event == ClientRead([]) || event.GatewayClosed? || event == Received(Close)
  }

  predicate Fails(turn: Turn) {
    turn.event.ClientFailed? || turn.event.GatewayFailed? || (turn.write.Broken? && Writes(turn.event))
  }

  /** The events that lead to a write whose failure is not ignored. */
  predicate Writes(event: Event) {
    match event
    case ClientRead(bytes) => bytes != []
    case Received(message) => !message.Pong? && !message.Frame?
    case GatewayClosed => true
    case _ => false
  }

  /** The frames an event leads to: what the client sent, an answer to a ping, or the end of the
      client's stream. */
  function FramesFor(event: Event): seq<Message> {
    match event
    case ClientRead(bytes) => [if bytes == [] then Close else Binary(bytes)]
    case Received(Ping(payload)) => [Pong(payload)]
    case _ => []
  }

  /** The frames of the first `n` turns, behind those sent `first`. */
  function FramesAfter(first: seq<Message>, turns: seq<Turn>, n: nat): seq<Message>
    requires n <= |turns|
  {
    if n == 0 then first
    else FramesAfter(first, turns, n - 1) + if turns[n - 1].write.Done? then FramesFor(turns[n - 1].event) else []
  }

  /** All that a turn brings is passed on, each kind in its own direction, and nothing else, unless it
      fails. */
  predicate Faithful(turn: Turn, e: Effect) {
    && e.frames == (if turn.write.Done? then FramesFor(turn.event) else [])
    && e.bytes <= ForClient(turn.event)
    && (e.end.Failure? <==> Fails(turn))
    && (e.end.Finished? <==> Ends(turn.event) && !Fails(turn))
    && (!Fails(turn) ==> e.bytes == ForClient(turn.event))
  }

  lemma FramesCarry(event: Event)
    ensures |FramesFor(event)| <= 1
    ensures FramesFor(event) == [] ==> FromClient(event) == [] && PingOf(event) == []
    ensures FramesFor(event) != [] ==>
              BinaryOf(FramesFor(event)[0]) == FromClient(event) && PongOf(FramesFor(event)[0]) == PingOf(event)
  {
  }

  function Cut(payload: seq<byte>, n: nat): (prefix: seq<byte>)
    ensures prefix <= payload
  {
    if n <= |payload| then payload[..n] else payload
  }

  /** The branches of the `select!`. */
  method React(turn: Turn) returns (e: Effect)
    ensures Faithful(turn, e)
    ensures turn.write.Done? ==>
              match turn.event
              case ClientRead(bytes) =>
                e == if bytes == [] then Effect([Close], [], Finished) else Effect([Binary(bytes)], [], Running)
              case Received(Binary(payload)) => e == Effect([], payload, Running)
              case Received(TextFrame(text)) => e == Effect([], Encode(text), Running)
              case Received(Ping(payload)) => e == Effect([Pong(payload)], [], Running)
              case Received(Pong(_)) => e == Effect([], [], Running)
              case Received(Frame) => e == Effect([], [], Running)
              case Received(Close) => e == Effect([], [], Finished)
              case GatewayClosed => e == Effect([], [], Finished)
              case ClientFailed => e == Effect([], [], Failure)
              case GatewayFailed => e == Effect([], [], Failure)
    ensures turn.write.Broken? ==>
              match turn.event
              case ClientRead(bytes) => e == Effect([], [], if bytes == [] then Finished else Failure)
              case Received(Pong(_)) => e == Effect([], [], Running)
              case Received(Frame) => e == Effect([], [], Running)
              case _ => e.end == Failure && e.frames == []
  {
    var ok := turn.write.Done?;
    match turn.event {
      case ClientRead(bytes) =>
        if bytes == [] {
          e := Effect(if ok then [Close] else [], [], Finished);
        } else {
          e := if ok then Effect([Binary(bytes)], [], Running) else Effect([], [], Failure);
        }
      case ClientFailed =>
        e := Effect([], [], Failure);
      case Received(message) =>
        match message {
          case Binary(payload) =>
            e := if ok then Effect([], payload, Running) else Effect([], Cut(payload, turn.write.after), Failure);
          case TextFrame(text) =>
            var payload := Encode(text);
            e := if ok then Effect([], payload, Running) else Effect([], Cut(payload, turn.write.after), Failure);
          case Ping(payload) =>
            e := if ok then Effect([Pong(payload)], [], Running) else Effect([], [], Failure);
          case Pong(_) =>
            e := Effect([], [], Running);
          case Frame =>
            e := Effect([], [], Running);
          case Close =>
            e := Effect([], [], if ok then Finished else Failure);
        }
      case GatewayFailed =>
        e := Effect([], [], Failure);
      case GatewayClosed =>
        e := Effect([], [], if ok then Finished else Failure);
    }
  }

  // ---- A whole run ----

  /** What was passed on in both directions is what came in; after a failure, a prefix of it. */
  predicate Conserved(initial: seq<byte>, came: Came, sent: seq<Message>, written: seq<byte>, end: End) {
    && Binaries(sent) <= initial + came.client
    && written <= came.gateway
    && (!end.Failure? ==>
          Binaries(sent) == initial + came.client && written == came.gateway && Pongs(sent) == came.pings)
  }

  lemma OneMoreTurn(initial: seq<byte>, came: Came, turn: Turn, sent: seq<Message>, written: seq<byte>, e: Effect)
    requires Conserved(initial, came, sent, written, Running) && Faithful(turn, e)
    ensures Conserved(initial, With(came, turn.event), sent + e.frames, written + e.bytes, e.end)
  {
    FramesCarry(turn.event);
    assert initial + came.client + FromClient(turn.event) == initial + (came.client + FromClient(turn.event));
    if e.frames != [] {
      assert e.frames == [e.frames[0]];
      SendOne(sent, e.frames[0]);
    } else {
      assert sent + e.frames == sent;
    }
  }

  lemma NothingSent(initial: seq<byte>)
    ensures Conserved(initial, Came([], [], []), [], [], if initial == [] then Running else Failure)
  {
  }

  lemma InitialSend(initial: seq<byte>)
    ensures Conserved(initial, Came([], [], []), [Binary(initial)], [], Running)
  {
    SendOne([], Binary(initial));
    assert [] + [Binary(initial)] == [Binary(initial)];
  }

  /** The frame that hands the buffered bytes on. */
  function FirstFrames(initial: seq<byte>, firstSend: Write): seq<Message> {
    if initial == [] || firstSend.Broken? then [] else [Binary(initial)]
  }

  /** While nothing fails, the Binary frames sent carry the buffered bytes and then exactly what the
      client sent, and the client is written exactly what the Binary and Text frames carried; pings
      are answered in order and add nothing. After a failure, what was passed on is a prefix. */
  method Proxy(initial: seq<byte>, turns: seq<Turn>, firstSend: Write)
    returns (sent: seq<Message>, written: seq<byte>, end: End, used: nat)
    ensures used <= |turns| && Conserved(initial, CameIn(turns, used), sent, written, end)
    ensures sent == FramesAfter(FirstFrames(initial, firstSend), turns, used)
    ensures end.Running? ==> used == |turns|
    ensures end.Finished? ==> used > 0 && Ends(turns[used - 1].event)
  {
    NothingSent(initial);
    if initial == [] {
      sent, written, end, used := RunTurns(initial, [], turns);
    } else if firstSend.Broken? {
      sent, written, end, used := [], [], Failure, 0;
    } else {
      InitialSend(initial);
      sent, written, end, used := RunTurns(initial, [Binary(initial)], turns);
    }
  }

  /** The loop of `proxy`, after the frames sent `first`. */
  method RunTurns(initial: seq<byte>, first: seq<Message>, turns: seq<Turn>)
    returns (sent: seq<Message>, written: seq<byte>, end: End, used: nat)
    requires Conserved(initial, Came([], [], []), first, [], Running)
    ensures used <= |turns| && Conserved(initial, CameIn(turns, used), sent, written, end)
    ensures sent == FramesAfter(first, turns, used)
    ensures end.Running? ==> used == |turns|
    ensures end.Finished? ==> used > 0 && Ends(turns[used - 1].event)
  {
    sent, written, end, used := first, [], Running, 0;
    ghost var came := CameIn(turns, 0);
    while used < |turns| && end.Running?
      invariant used <= |turns| && came == CameIn(turns, used)
      invariant sent == FramesAfter(first, turns, used)
      invariant Conserved(initial, came, sent, written, end)
      invariant end.Finished? ==> used > 0 && Ends(turns[used - 1].event)
      decreases |turns| - used
    {
      var effect := React(turns[used]);
      OneMoreTurn(initial, came, turns[used], sent, written, effect);
      came := With(came, turns[used].event);
      sent, written, end := sent + effect.frames, written + effect.bytes, effect.end;
      used := used + 1;
    }
  }

  // ---- From the request to the end of the tunnel ----

  const ESTABLISHED := "HTTP/1.1 200 Connection Established\r\n\r\n"

  /** `ReplyStyle::write_success`, of an HTTP client. */
  function SuccessReply(request: ProxyRequest): seq<byte> {
    if request.Connect? then Encode(ESTABLISHED) else []
  }

  /** What the gateway is to get of a request: of a CONNECT tunnel exactly `body`, of an ordinary
      request the header its own was rewritten to, and then `body`. */
  function Passed(parsed: Parsed, body: seq<byte>): seq<byte> {
    match parsed
    case Tunnel(_) => body
    case Forward(_, head) => Encode(HeaderText(head)) + TERMINATOR + body
  }

  /** The header of an accepted request, parsed. */
  function ParsedHeader(header: seq<byte>, parse: UrlParser): Result<Parsed> {
    match Decode(header)
    case None => Err
    case Some(text) => ParseHeader(text, parse)
  }

  lemma HandedOn(header: seq<byte>, leftover: seq<byte>, parse: UrlParser, request: ProxyRequest, later: seq<byte>)
    requires Interpret(header, leftover, parse) == Ok(request)
    ensures ParsedHeader(header, parse).Ok?
    ensures request.initialClientBytes + later == Passed(ParsedHeader(header, parse).value, leftover + later)
  {
    match ParsedHeader(header, parse).value
    case Tunnel(_) =>
    case Forward(_, head) =>
      BlankLineBytes();
      EncodeAppend(HeaderText(head), BLANK_LINE);
      BehindHeader(Encode(HeaderText(head)) + TERMINATOR, leftover, later, request.initialClientBytes);
  }

  lemma BehindHeader(text: seq<byte>, leftover: seq<byte>, later: seq<byte>, initial: seq<byte>)
    requires initial == text + leftover
    ensures initial + later == text + (leftover + later)
  {
  }

  lemma TailOfBoth(a: seq<byte>, b: seq<byte>, n: nat)
    requires n <= |a|
    ensures (a + b)[n..] == a[n..] + b
  {
  }

  /** What a tunnel has passed on both ways; if it failed, a prefix of that. */
  predicate EndToEnd(passed: seq<byte>, reply: seq<byte>, gateway: seq<byte>, binaries: seq<byte>, written: seq<byte>,
                     end: End)
  {
    && written <= reply + gateway
    && binaries <= passed
    && (!end.Failure? ==> written == reply + gateway && binaries == passed)
  }

  /** `handle_client` and `handle_gateway` for a client whose requests go through the gateway: reading
      the request, connecting, answering it and relaying. The gateway gets this client's header,
      rewritten, if its request is an ordinary one, and then the client's bytes after the first blank
      line, those read along with the header and those read later, each once and in order; if
      something fails, it and the client get a prefix. `refusal` is the status of an error answer,
      which is then all that the client gets. */
  method Serve(chunks: seq<Chunk>, parse: UrlParser, opens: bool, replyWrite: Write, turns: seq<Turn>, firstSend: Write)
    returns (request: Result<ProxyRequest>, refusal: Option<nat>, sent: seq<Message>, written: seq<byte>, end: End,
             read: nat, used: nat)
    ensures read <= |chunks| && used <= |turns|
    ensures !Accepts(chunks) ==> request.Err?
    ensures Accepts(chunks) ==>
              var body := IndexOf(Flatten(chunks), TERMINATOR).value + 4;
              && body <= |Before(chunks, read)|
              && request == Interpret(Flatten(chunks)[..body - 4], Before(chunks, read)[body..], parse)
    ensures refusal == if request.Err? then Some(400) else if !opens then Some(502) else None
    ensures refusal.Some? ==> sent == [] && written == [] && end == Failure
    ensures refusal.None? ==>
              var body := IndexOf(Flatten(chunks), TERMINATOR).value + 4;
              var client := Before(chunks, read) + CameIn(turns, used).client;
              var parsed := ParsedHeader(Flatten(chunks)[..body - 4], parse);
              && parsed.Ok?
              && EndToEnd(Passed(parsed.value, client[body..]), SuccessReply(request.value),
                          CameIn(turns, used).gateway,
                          Binaries(sent), written, end)
              && sent == FramesSent(request.value, replyWrite, firstSend, turns, used)
              && Answered(parsed.value, CameIn(turns, used).gateway, written, end)
  {
    refusal, sent, written, end, used := None, [], [], Failure, 0;
    request, read := ReadProxyRequest(chunks, parse);
    if request.Err? {
      refusal := Some(400);
      return;
    }
    ghost var body := IndexOf(Flatten(chunks), TERMINATOR).value + 4;
    ghost var header, leftover := Flatten(chunks)[..body - 4], Before(chunks, read)[body..];
    if !opens {
      refusal := Some(502);
      return;
    }
    sent, written, end, used := RunTunnel(request.value, replyWrite, turns, firstSend, header, leftover, parse);
    TailOfBoth(Before(chunks, read), CameIn(turns, used).client, body);
  }

  /** What the client is written: of a CONNECT tunnel, that it is there, and then the gateway's bytes; of
      an ordinary request, these alone. */
  predicate Answered(parsed: Parsed, gateway: seq<byte>, written: seq<byte>, end: End) {
    match parsed
    case Tunnel(_) =>
      var reply := Encode("HTTP/1.1 200 Connection Established\r\n\r\n");
      written <= reply + gateway && (!end.Failure? ==> written == reply + gateway)
    case Forward(_, _) =>
      written <= gateway && (!end.Failure? ==> written == gateway)
  }

  lemma ReplyByKind(header: seq<byte>, leftover: seq<byte>, parse: UrlParser, request: ProxyRequest)
    requires Interpret(header, leftover, parse) == Ok(request)
    ensures ParsedHeader(header, parse).Ok?
    ensures SuccessReply(request)
         == match ParsedHeader(header, parse).value
            case Tunnel(_) => Encode("HTTP/1.1 200 Connection Established\r\n\r\n")
            case Forward(_, _) => []
  {
  }

  predicate ReplyFails(request: ProxyRequest, replyWrite: Write) {
    request.Connect? && replyWrite.Broken?
  }

  /** No frame is sent but the buffered bytes and what the turns lead to. */
  function FramesSent(request: ProxyRequest, replyWrite: Write, firstSend: Write, turns: seq<Turn>, used: nat)
    : seq<Message>
    requires used <= |turns|
  {
    if ReplyFails(request, replyWrite) then []
    else FramesAfter(FirstFrames(request.initialClientBytes, firstSend), turns, used)
  }

  /** The rest of `handle_gateway`, once the tunnel is open. */
  method RunTunnel(request: ProxyRequest, replyWrite: Write, turns: seq<Turn>, firstSend: Write,
                   ghost header: seq<byte>, ghost leftover: seq<byte>, ghost parse: UrlParser)
    returns (sent: seq<Message>, written: seq<byte>, end: End, used: nat)
    requires Interpret(header, leftover, parse) == Ok(request)
    ensures used <= |turns|
    ensures ParsedHeader(header, parse).Ok?
    ensures EndToEnd(Passed(ParsedHeader(header, parse).value, leftover + CameIn(turns, used).client),
                     SuccessReply(request),
                     CameIn(turns, used).gateway, Binaries(sent), written, end)
    ensures sent == FramesSent(request, replyWrite, firstSend, turns, used)
    ensures Answered(ParsedHeader(header, parse).value, CameIn(turns, used).gateway, written, end)
  {
    ReplyByKind(header, leftover, parse, request);
    if ReplyFails(request, replyWrite) {
      sent, end, used := [], Failure, 0;
      written := Cut(SuccessReply(request), replyWrite.after);
      HandedOn(header, leftover, parse, request, []);
      return;
    }
    var relayed;
    sent, relayed, end, used := Proxy(request.initialClientBytes, turns, firstSend);
    written := SuccessReply(request) + relayed;
    HandedOn(header, leftover, parse, request, CameIn(turns, used).client);
    PrefixBehind(SuccessReply(request), relayed, CameIn(turns, used).gateway);
  }

  lemma PrefixBehind(reply: seq<byte>, relayed: seq<byte>, whole: seq<byte>)
    requires relayed <= whole
    ensures reply + relayed <= reply + whole
  {
  }
}

/** Connecting a tunnel to the gateway (`connect_gateway` and `connect_websocket` of `src/tunnel.rs`),
    one tunnel at a time: the credentials of module Session, the transports of module Http3. */
module Gateway {
  import opened Wrappers
  import Session
  import opened Http3

  /** `GatewayAuth`. */
  datatype Auth = NoAuth | Basic(header: string) | Token(session: Session.TokenSession)

  /** What one call of `connect_websocket` meets. */
  datatype Network = Network(now: nat, first: Try, second: Try, later: nat, tcp: Answer)

  /** One round of `connect_gateway`: the clock and the replies `authorization` gets, the HTTP/3 mode
      it reads, the network, and the clock when a refused token is reported. */
  datatype Round = Round(now: nat, refresh: Session.Reply, login: Session.Reply, mode: Mode, network: Network,
                         reportAt: nat)

  /** A call of `connect_websocket`: the header it sent, the QUIC connections it asked, whether it
      dialled TCP, and its answer. */
  datatype Call = Call(header: Option<string>, asked: seq<nat>, dialled: bool, answer: Answer)

  function Handshakes(calls: seq<Call>): nat {
    if calls == [] then 0 else Handshakes(calls[1..]) + |calls[0].asked| + if calls[0].dialled then 1 else 0
  }

  lemma {:induction false} ThreeEach(calls: seq<Call>)
    requires forall call <- calls :: |call.asked| <= 2
    ensures Handshakes(calls) <= 3 * |calls|
  {
    if calls != [] {
      ThreeEach(calls[1..]);
    }
  }

  /** The transports used by one call: none but TCP where HTTP/3 is off or not usable, never TCP after
      a 401 or in `Only` mode, and TCP exactly when the fallback is on or HTTP/3 broke. */
  ghost predicate TransportsOk(call: Call, mode: Mode, usable: bool, until: Option<nat>, network: Network) {
    && |call.asked| <= 2
    && (call.dialled ==> call.answer == network.tcp)
    && (mode.Off? || !usable ==> call.asked == [] && call.dialled)
    && (mode.Only? && usable ==> !call.dialled)
    && (mode.Preferred? && usable && PutOff(until, network.now) ==> call.asked == [] && call.dialled)
    && (!call.dialled ==> (call.answer == Opened || call.answer == Failed(Http(401)) || mode.Only?))
  }

  method ConnectWebsocket(header: Option<string>, mode: Mode, direct: bool, secure: bool, connections: Connections,
                          key: Key, network: Network)
    returns (call: Call)
    modifies connections
    ensures call.header == header
    ensures TransportsOk(call, mode, direct && secure, old(connections.fallbackUntil), network)
    ensures mode != Off && direct && secure && (mode.Only? || !PutOff(old(connections.fallbackUntil), network.now)) ==>
              exists answer ::
                && TriedProperly(old(connections.cache), key, network.first, network.second, answer, call.asked,
                                 connections.cache)
                && match Conclude(answer, mode.Only?)
                   case Stream => !call.dialled && call.answer == Opened
                   case Refused(failure) => !call.dialled && call.answer == Failed(failure)
                   case UseTcp => call.dialled
    ensures mode.Off? || !direct || !secure ==>
              connections.cache == old(connections.cache) && connections.fallbackUntil == old(connections.fallbackUntil)
    ensures connections.fallbackUntil.Some? && connections.fallbackUntil != old(connections.fallbackUntil) ==>
              call.dialled && connections.fallbackUntil == Some(network.later + FALLBACK_PERIOD)
  {
    var asked := [];
    if mode != Off && direct && secure {
      var verdict;
      verdict, asked := connections.Connect(key, mode == Only, network.now, network.first, network.second,
                                            network.later);
      match verdict {
        case Stream =>
          return Call(header, asked, false, Opened);
        case Refused(failure) =>
          return Call(header, asked, false, Failed(failure));
        case UseTcp =>
      }
    }
    call := Call(header, asked, true, network.tcp);
  }

  /** `GatewayAuth::authorization`. */
  method Authorization(auth: Auth, round: Round) returns (header: Result<Option<string>>)
    modifies if auth.Token? then {auth.session} else {}
    ensures !auth.Token? ==> header == Ok(if auth.Basic? then Some(auth.header) else None)
    ensures auth.Token? ==>
              var (state, token) := Session.Authorized(old(auth.session.state), round.now, round.refresh, round.login);
              && auth.session.state == state
              && header == if token.Some? then Ok(Some(Session.BearerValue(token.value))) else Err
  {
    match auth {
      case NoAuth =>
        header := Ok(None);
      case Basic(basic) =>
        header := Ok(Some(basic));
      case Token(session) =>
        var authorization, _ := session.Authorization(round.now, round.refresh, round.login);
        header := if authorization.Ok? then Ok(Some(authorization.value)) else Err;
    }
  }

  datatype Outcome = Websocket | NoToken | Refusal(failure: Failure)

  predicate IsUnauthorized(answer: Answer) {
    answer == Failed(Http(401))
  }

  /** At most two calls, the second only after a token was answered 401; the outcome is that of the
      last one, or that there was no token to make one with. */
  predicate CallsOk(auth: Auth, calls: seq<Call>, outcome: Outcome) {
    && |calls| <= 2
    && (|calls| == 2 ==> auth.Token? && IsUnauthorized(calls[0].answer))
    && (outcome.Websocket? <==> calls != [] && calls[|calls| - 1].answer == Opened)
    && (outcome.Refusal? ==> calls != [] && calls[|calls| - 1].answer == Failed(outcome.failure))
    && (outcome.NoToken? ==>
          auth.Token? && (calls == [] || (|calls| == 1 && IsUnauthorized(calls[0].answer))))
    && (auth.Token? && |calls| == 1 && IsUnauthorized(calls[0].answer) ==> outcome.NoToken?)
  }

  /** What the two calls of `authorization` of a tunnel return when the first token is refused. */
  function FirstToken(state: Option<Session.Tokens>, first: Round): Option<string> {
    Session.Authorized(state, first.now, first.refresh, first.login).1
  }

  function Reported(state: Option<Session.Tokens>, first: Round, token: string): Option<Session.Tokens> {
    Session.AfterReject(Session.Authorized(state, first.now, first.refresh, first.login).0,
                        Session.BearerValue(token), first.reportAt)
  }

  method ConnectGateway(auth: Auth, direct: bool, secure: bool, connections: Connections, key: Key, first: Round,
                        second: Round)
    returns (outcome: Outcome, calls: seq<Call>)
    modifies connections, if auth.Token? then {auth.session} else {}
    ensures CallsOk(auth, calls, outcome)
    ensures Handshakes(calls) <= 6
    ensures forall i | 0 <= i < |calls| ::
              (if i == 0 then first else second).mode.Only? && direct && secure ==> !calls[i].dialled
    ensures auth.Basic? ==> |calls| == 1 && calls[0].header == Some(auth.header)
    ensures auth.NoAuth? ==> |calls| == 1 && calls[0].header == None
    ensures auth.Token? ==>
              var token := FirstToken(old(auth.session.state), first);
              && (calls == [] <==> token == None)
              && (calls != [] ==> calls[0].header == Some(Session.BearerValue(token.value)))
    ensures auth.Token? && |calls| == 2 ==>
              var token := FirstToken(old(auth.session.state), first).value;
              var again := FirstToken(Reported(old(auth.session.state), first, token), second);
              again.Some? && calls[1].header == Some(Session.BearerValue(again.value))
  {
    calls := [];
    var renewed := false;
    ghost var state0 := if auth.Token? then auth.session.state else None;
    while true
      invariant renewed <==> calls != []
      invariant renewed ==> auth.Token? && |calls| == 1 && IsUnauthorized(calls[0].answer)
      invariant renewed ==> |calls[0].asked| <= 2 && (first.mode.Only? && direct && secure ==> !calls[0].dialled)
      invariant auth.Token? && !renewed ==> auth.session.state == state0
      invariant renewed ==> FirstToken(state0, first).Some?
                            && calls[0].header == Some(Session.BearerValue(FirstToken(state0, first).value))
                            && auth.session.state == Reported(state0, first, FirstToken(state0, first).value)
      decreases !renewed
    {
      var round := if renewed then second else first;
      var header := Authorization(auth, round);
      if header.Err? {
        return NoToken, calls;
      }
      var call := ConnectWebsocket(header.value, round.mode, direct, secure, connections, key, round.network);
      calls := calls + [call];
      ThreeEach(calls);
      match call.answer {
        case Opened =>
          return Websocket, calls;
        case Failed(failure) =>
          if failure != Http(UNAUTHORIZED) || renewed || !auth.Token? {
            return Refusal(failure), calls;
          }
          renewed := true;
          auth.session.Rejected(header.value.value, round.reportAt);
      }
    }
  }

  /** A token that was refused is due: the second call of `authorization` returns one it has just been
      sent, or the refused one because renewing failed. */
  lemma SecondTokenIsRenewed(state: Option<Session.Tokens>, first: Round, second: Round)
    requires FirstToken(state, first).Some? && first.reportAt <= second.now
    ensures var token := FirstToken(state, first).value;
            var reported := Reported(state, first, token);
            var renewal := Session.RenewalOf(reported, second.now, second.refresh, second.login);
            && Session.Due(reported, second.now)
            && FirstToken(reported, second)
            == (if renewal.outcome.Renewed? then Some(renewal.state.value.access)
                else if renewal.at < reported.value.accessExpires then Some(token)
                else None)
  {
    var token := FirstToken(state, first).value;
    var after := Session.Authorized(state, first.now, first.refresh, first.login).0;
    Session.RejectMatchesItsOwnHeader(after, token, first.reportAt);
  }
}

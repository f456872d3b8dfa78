# Verified model of the ws2tcp local proxy core

This project models, in Dafny 4.11, the parts of the proxy whose correctness does not show in any one
function, and proves what its documentation and its tests promise of them.

* **The token session** (`Session`, `SessionProtocol`, `SessionInvariants`, `SessionTiming`,
  `SessionTheorems`). `Session.TokenSession` is the object of `src/session.rs`, its methods proved against
  functions of the state, the clock and the router's replies. `SessionProtocol` is every interleaving of
  tunnels, the background renewal, the clock and the router over it: a step is what one task does between
  two awaits. The router may answer 200, 401, anything else or nothing; all that is asked of it is that the
  tokens it issues are new. Tunnels may be dropped wherever they await.
* **The HTTP proxy front end and the relay** (`HeaderReaders`, `HttpProxy`, `HttpFields`, `Authority`, `Relay`, on
  top of `Text` and `Utf8`). Header readers over arbitrary chunkings, the rewriting of ordinary requests,
  authorities, and the relay loop, from the first byte read to the last frame sent.
* **Connecting to the gateway** (`Http3`, `Gateway`, `Http3Protocol`, `Http3Theorems`,
  `Http3Calls`). The QUIC session cache, the timed TCP fallback, the tunnel counters and the one retry after a 401: the objects and loops of
  `src/http3.rs` and `src/tunnel.rs` one call at a time, and every interleaving of calls.
* **Routing rules** (`RoutingModes`, `ListCache`, `DomainRules`). The generation-numbered mode switch, the
  list cache on disk or in memory, rule parsing and the suffix matcher.
* **SOCKS5 UDP** (`Socks5`, `UdpAssociation`). The datagram format of section 7 of RFC 1928 and the loop that
  takes one socket's datagrams apart by destination.

Things outside the modelled code are parameters or scripts: replies of servers, what the network and the
file system do, clock readings (one for each stretch of code between two awaits), `Url::parse` and the text
form of IP addresses, of which the few facts relied on are stated as `HttpProxy.ParsesUrls` (of
strings that start with http:// or https://, the only ones parsed) and `Socks5.Faithful`. Text is a sequence of
Unicode scalar values; `Utf8` relates it to bytes.

Claims that are false of the code, with the exact condition proved in their place:

* *`authorization` never hands out an expired access token.* It does, for up to five seconds after a failed
  renewal has postponed the next one past the end of the token (`src/session.rs:264-266`):
  `SessionTheorems.ExpiredTokenIsHandedOut` is a run of it, `SessionTheorems.ExpiredExactlyWhen` says when for one
  call, `SessionTheorems.ExpiredWerePutOff` why in all runs, and `SessionTheorems.StalenessIsBounded` by how much.
* *The latest mode wins.* A refresher that has looked at the generation and not yet written can be overtaken on
  another thread (`src/routing_rules.rs:159-163`, `197-200`, `205-209`): `RoutingModes.GlobalCanBeUndone` is a run
  of it, and `RoutingModes.LatestModeWins` proves that this is the only way.
* *The fallback period lasts until the deadline last written.* The clock is read before the deadline is written
  (`src/http3.rs:252`), so a slower thread may write an earlier one: `Http3Theorems.SlowerCallShortensThePeriod` is
  a run of it, and `Http3Theorems.FallbackLastsExactlyWhen` proves that this, or a reset, is the only way.
* *The URL returned with a list is where it came from.* A cached list is served on the word of any source whose
  file bears the same second: `ListCache.ServedOnAnotherWord` is a run of it, and
  `ListCache.SourceIsItsUrlExactlyWhen` says exactly when.
* *Normalising a host is idempotent.* Not where dots hide whitespace: `DomainRules.NotIdempotent`,
  `DomainRules.NormalizeTwice`. It is on every rule that is loaded.
* *`build_udp_datagram` is the inverse of `parse_udp_datagram`.* Exactly for hosts in their standard form:
  `Socks5.RoundTrip`, `Socks5.ParsedHostsAreBuilt`; `Socks5.LiteralSentAsName` is a datagram for which it is not.
* *A datagram for a target that has timed out is dropped like a late packet* (`src/tunnel.rs:300-302`). So is every
  later one of the association, because the entry stays: `UdpAssociation.LateDatagramIsLost` is a run of it,
  `UdpAssociation.DeliveredExactlyWhen` and `UdpAssociation.NothingAfterExit` say exactly when.

Check everything with `dafny verify dfyconfig.toml`. Nothing here runs the proxy itself.

## Model

| member | source | states |
|---|---|---|
| Session.IntoTokens | src/session.rs:155-172 | answers are refused exactly when a token is malformed; accepted tokens are due when 80% of the lifetime is over, and run out when the answer says |
| Session.AnswersAreJudged | src/session.rs:343-383 | 401 is a refusal; tokens are accepted exactly from 200 to 299, with a body of at most 64 KiB that is two visible tokens, and carry what the body says; everything else is a failure |
| Session.RenewalByStatus | src/session.rs:316-341 | by status: a refresh refused with 401 is followed by a login, any other failure ends the renewal, and what the last request came to decides |
| Session.TokenSession.Renew | src/session.rs:316-341 | state, outcome and requests sent are those of a refresh followed, on a 401 only, by a login; a failure changes nothing |
| Session.TokenSession.Authorization | src/session.rs:255-274 | the token handed out, the state left and the requests sent, for every state and all replies |
| Session.TokenSession.UntilBackgroundRenewal | src/session.rs:278-285 | the sleep before the next background renewal, the clock having been read before the lock was taken |
| Session.UntilRenewal | src/session.rs:278-285 | that sleep is at least 1 s, ends neither before the token is due nor before the retry time, and if it is longer than 1 s it ends at one of them |
| Session.TokenSession.RenewInBackground | src/session.rs:288-304 | renews exactly when due; reports failure exactly when a renewal did not succeed, and then the state is as it was |
| Session.TokenSession.Rejected | src/session.rs:306-313 | only the token that is current becomes due |
| Session.RejectMatchesItsOwnHeader | src/session.rs:306-313 | a report of the header made for a token marks exactly that token |
| Session.KeepFresh | src/session.rs:388-414 | the background loop leaves the session, the failure count, the retry time and the sleeps of a run of turns |
| Session.SleepsAreLong | src/session.rs:388-414 | in every such run each sleep takes at least 1 s |
| Session.RowCounts | src/session.rs:403-412 | in every such run n failures in a row are counted as n, change nothing else, and put the next attempt off by the documented delay |
| Session.SleepsOutTheDelay | src/session.rs:395-412 | the sleep after n failures in a row lasts until that delay is over; a turn that does not fail starts the row anew |
| Session.CounterSaturates | src/session.rs:407 | the failure count goes up by one and stays at the largest u32 |
| Session.SaturatingBackoffIsExact | src/session.rs:404-408 | for every number of failures the saturating arithmetic gives min(300 s, 5 s doubled once for each) |
| SessionInvariants.ReceiveEffect | src/session.rs:315-341 | a reply ends a renewal with the state it had found or with the tokens it brought, and releases the lock |
| SessionTheorems.InvKept | src/session.rs:204-206 | every step of every task keeps the invariant of the protocol |
| SessionTheorems.InvAlways | src/session.rs:204-206 | so it holds in every world of every run |
| SessionTheorems.OneRequestInFlight | src/session.rs:204-206 | at most one token request is under way, and the state is always the last successful answer |
| SessionTheorems.RefreshTokensAreSingleUse | src/session.rs:315-333 | each refresh token presented came with the last successful answer; one that was exchanged is never presented again |
| SessionTheorems.AuthorizationIsAtomic | src/session.rs:255-274 | an interleaved `authorization` does to the state, and hands out, what the sequential one would with the answers the router gave |
| SessionTheorems.BackgroundAttemptIsAtomic | src/session.rs:288-304 | the same for a background renewal, which leaves the failure count and the retry time of its outcome |
| SessionTheorems.RefusalWasAnswered | src/session.rs:321-329 | the refusal of a refresh token that a login follows was an answer of the router to that very renewal |
| SessionTheorems.RequestsAreTheRenewals | src/session.rs:204-206 | whatever other tasks do meanwhile, a renewal sends exactly the requests of the sequential one, and nobody else sends any |
| SessionTheorems.NothingIsStuck | src/session.rs:255-313 | in every run, whatever waits for the mutex can go on when it is free, and its holder can on any answer |
| SessionTheorems.EndsWithTheSession | src/session.rs:386-402 | the background task goes round while something else holds the session, and ends when it finds that nothing does |
| SessionTheorems.AnswerDecides | src/tunnel.rs:487-500 | a tunnel that is told 401 reports its token the first time and ends the second |
| SessionTheorems.ReportLeadsToAsking | src/tunnel.rs:493-495 | after the report it asks for another token, and remembers the refused one |
| SessionTheorems.SecondOnlyAfter401 | src/tunnel.rs:488-495 | in every run a tunnel asks for another token only after the gateway refused its first with 401 |
| SessionTheorems.RetryCarriesAnotherToken | src/tunnel.rs:474-502 | at most two attempts for a tunnel; the second carries another token unless a renewal failed in between |
| SessionTheorems.StalenessIsBounded | src/session.rs:255-273 | every token handed out was obtained in that call or ran out less than 5 s ago |
| SessionTheorems.ExpiredWerePutOff | src/session.rs:261-267 | in every run a token that had run out when it was handed out had no lifetime at all, or had been put off after a failed renewal |
| SessionTheorems.ExpiredExactlyWhen | src/session.rs:258-273 | exactly when a call returns a token that has run out |
| SessionTheorems.ExpiredTokenIsHandedOut | src/session.rs:264-266 | a run in which a token is handed out 2 s after it ran out |
| SessionTheorems.ReplacedOnceAndNotEarly | src/session.rs:155-172 | no access token comes twice; each is replaced after 80% of its lifetime or after it was itself reported |
| SessionTheorems.ReportsCauseOneRenewalEach | src/session.rs:306-313 | early renewals number at most the tokens reported, however many tunnels report each |
| SessionTheorems.RenewalsInAWindow | src/session.rs:164-169 | a window of W seconds holds at most W/(0.8 L) + 1 renewals of which no token but the last was reported |
| SessionTheorems.BackgroundAttemptsKeepTheirDistance | src/session.rs:40-45 | background attempts start 1 s apart, and after k failures in a row the named delay later |
| SessionTheorems.FailuresInARowSpread | src/session.rs:388-413 | the n-th failure in a row comes at least 315 + 300 (n - 7) s after the first |
| SessionTheorems.NothingAfterTheLastHandle | src/session.rs:386-402 | once the last outside handle is gone only the attempt under way may finish |
| HeaderReaders.ReadHeader | src/http_proxy.rs:51-80 | for every chunking: the header is the stream up to its first blank line, the leftover is the rest of what was read, no read is made in vain |
| HeaderReaders.LimitForEveryChunking | src/http_proxy.rs:53-65 | headers that end by byte 15361 pass for every chunking, those that end after byte 16384 for none |
| HeaderReaders.LimitIsSharp | src/http_proxy.rs:53-65 | in between, a stream passes byte by byte, and some chunking of it fails exactly when it is longer than 16384 bytes |
| HeaderReaders.ReadConnectResponse | src/upstream.rs:205-221 | the byte-at-a-time reader finds the same boundary, takes nothing past it, and accepts exactly what ends by byte 8192 |
| HttpProxy.RewriteHeader | src/http_proxy.rs:176-222 | the loop writes the request line, every kept line and a Host line if none was there, closed by one Connection line, or refuses the header |
| HttpProxy.RewritingSettles | src/http_proxy.rs:123-149 | whatever header is accepted, its rewritten form is one that rewriting leaves alone |
| HttpProxy.RewrittenHeaderIsFramed | src/http_proxy.rs:176-222 | the first blank line of the bytes sent is the end of the rewritten header, whatever follows |
| HttpProxy.ForwardedBytes | src/http_proxy.rs:123-149 | the bytes sent are that header and the leftover verbatim; every Host line names the destination, the only Connection line is `close` |
| HttpProxy.ReadProxyRequest | src/http_proxy.rs:51-76 | a request is accepted only when its header fits, and is what the header and the leftover amount to, chunking aside |
| HttpFields.MeaningIsKept | src/http_proxy.rs:123-233 | of every accepted request the method, the version and the fields are kept; an absolute target leads to its URL's host and port, or 80, and leaves path and query; any other is kept and leads to the first Host |
| HttpFields.FieldByField | src/http_proxy.rs:224-233 | by name: the seven other fields of one hop are gone, Connection is `close`, every Host is the destination, and all other fields have the values they had |
| HttpFields.LinesRewritten | src/http_proxy.rs:191-212 | the same of any header lines that are not refused |
| HttpProxy.TunnelsExactly | src/http_proxy.rs:82-99 | exactly which request lines ask for a tunnel, and where to |
| HttpProxy.ConnectMeans | src/http_proxy.rs:93-99 | a CONNECT is accepted for its authority exactly when that is valid, whatever fields follow |
| HttpProxy.AcceptedHasAHost | src/tunnel.rs:114-116 | looking up the host of an accepted request never fails |
| HttpProxy.RewritingIsIdempotent | src/http_proxy.rs:82-149 | parsing the bytes sent gives the same destination and the same bytes |
| HttpProxy.SecondProxyChangesNothing | src/http_proxy.rs:51-149 | a second proxy that reads them, in any chunks, sends on exactly what it has read |
| Utf8.EncodingTable | src/http_proxy.rs:71-72 | the bytes of every character, as the table of section 3 of RFC 3629 has them |
| Text.LinesConsLf | src/http_proxy.rs:191 | a line ends with a line feed, with or without a carriage return before it |
| Text.WhitespaceByCode | src/http_proxy.rs:286 | which characters are white space, by code point |
| Text.OtherPorts | src/http_proxy.rs:316-320 | a port may have a plus sign, and one beyond 16 bits is refused |
| Text.DecimalByDigit | src/http_proxy.rs:274-280 | how a port is written |
| Authority.ValidAuthoritiesSplit | src/http_proxy.rs:282-314 | whatever is validated splits into a non-empty host and a 16-bit port and is its own normal form |
| Authority.NormalizeTwice | src/http_proxy.rs:245-272 | normalising a Host header is idempotent |
| Authority.SplitOfFormat | src/http_proxy.rs:274-280 | splitting a formatted authority gives host and port back exactly for hosts whose brackets are in order |
| Authority.ValidFormatSplits | src/http_proxy.rs:163-172 | a formatted authority that is accepted splits into the host without brackets and the port |
| Authority.HostHeaderMeans | src/http_proxy.rs:260-271 | a Host header of a name leads to its port, or to 80 without one |
| Authority.BracketedHeaderMeans | src/http_proxy.rs:250-254 | one of a bracketed address with a port leads to that port |
| Authority.BareBracketsMean | src/http_proxy.rs:255-258 | one of a bracketed address alone leads to port 80 |
| Authority.NamesAreValid | src/http_proxy.rs:282-314 | a name without slash, at sign, colon or space, and a port, are accepted |
| Authority.BracketedAreValid | src/http_proxy.rs:291-300 | so are a bracketed address and a port |
| Authority.SplitClosing | src/routing_rules.rs:881-893 | the host of a bracketed authority ends at the first "]:" |
| Relay.React | src/tunnel.rs:791-829 | event by event, what is sent, written and whether the loop goes on, ends or fails |
| Relay.Proxy | src/tunnel.rs:773-833 | in every run: Binary frames are the buffered bytes and then the client's, the client gets the payloads, pongs answer pings, and no other frame is sent; after a failure, prefixes |
| Relay.RunTunnel | src/tunnel.rs:531-534 | the client of a tunnel is told that it is there, that of an ordinary request nothing; then this request's header, if it is an ordinary one, and both streams are passed on whole, or up to a failure |
| Relay.Serve | src/tunnel.rs:102-148 | from the first byte read: the request is the one the bytes say; the gateway gets exactly what its header was rewritten to, if it is an ordinary one, and the client's bytes after the first blank line; a refused client gets an error and the gateway nothing |
| Http3.ConcludesExactly | src/http3.rs:240-255 | TCP is used exactly after a failure that is not a 401 and not in `Only` mode |
| Http3.Connections.ResetSessions | src/http3.rs:203-206 | both the cache and the fallback period are forgotten |
| Http3.Connections.FallbackActive | src/http3.rs:212-222 | whether the deadline lies ahead; one that is over is forgotten |
| Http3.Connections.Session | src/http3.rs:298-311 | an open cached connection is used, a closed one replaced, and a failure leaves none |
| Http3.Connections.TryConnect | src/http3.rs:258-283 | a request is repeated once, on the replacement of a cached connection that broke, and never after an HTTP answer |
| Http3.Connections.Connect | src/http3.rs:232-256 | when QUIC is asked, when TCP is to be used, and when the fallback period starts |
| Http3Calls.DoIsAStep | src/http3.rs:232-311 | what the three rows below put together are steps of the protocol |
| Http3Calls.LookupIsItsSteps | src/http3.rs:298-311 | with the lock held, the steps of looking up and establishing a connection do what `Session` does |
| Http3Calls.TryIsItsSteps | src/http3.rs:258-283 | the steps of a call that nothing interrupts make the requests of `TryConnect`, with its answer and the cache it leaves |
| Http3Calls.ConnectIsItsSteps | src/http3.rs:232-256 | such a call comes to the verdict of `Connect`, on the same connections, and leaves the cache and the deadline it leaves |
| Http3.StartMode | src/service.rs:52-68 | the requested mode where HTTP/3 is usable; elsewhere `Only` is refused and any other mode is off |
| Http3.Switch.Update | src/service.rs:130-144 | where HTTP/3 is not usable the mode stays off |
| Gateway.ConnectWebsocket | src/tunnel.rs:430-468 | which transports one call uses, in every mode |
| Gateway.Authorization | src/session.rs:113-119 | no header, the Basic header, or the session's token |
| Gateway.ConnectGateway | src/tunnel.rs:474-502 | at most two calls, the second only after a token was refused; at most six handshakes; `Only` never dials TCP; the headers sent |
| Gateway.SecondTokenIsRenewed | src/tunnel.rs:488-495 | after the report the second token comes from a renewal, or is the first because renewing failed |
| Http3Theorems.InvKept | src/http3.rs:232-311 | every step of every call keeps the invariant of the protocol |
| Http3Theorems.BoundedHandshakes | src/tunnel.rs:474-502 | in every run a call makes at most six handshakes, at most two over HTTP/3 in a round and on different connections, none over TCP in `Only` mode |
| Http3Theorems.OneEstablishes | src/http3.rs:299-310 | at most one call establishes a connection at a time |
| Http3Theorems.CountersAreConserved | src/http3.rs:425-427 | each tunnel counter is the number of live guards and of calls about to make one, so never negative, and zero exactly when all have ended |
| Http3Theorems.OpenedKeeps | src/http3.rs:425-426 | raising a counter keeps that |
| Http3Theorems.EndPumpKeeps | src/http3.rs:65-69 | dropping a guard keeps that |
| Http3Theorems.AnswersDecide | src/tunnel.rs:487-500 | what ends a call with a tunnel, what without, and that only the first 401 makes it renew its token |
| Http3Theorems.RenewsOnlyAfter401 | src/tunnel.rs:488-495 | in every run a call that renews its token was told 401 before, over either transport |
| Http3Theorems.HandshakesAreCounted | src/tunnel.rs:474-502 | requests and dials are counted one by one, across both rounds |
| Http3Theorems.NothingIsStuck | src/http3.rs:298-311 | in every run, whatever waits for the cache can go on when it is free, and its holder can always |
| Http3Theorems.ResetIsItsSteps | src/http3.rs:203-206 | the two steps of a reset leave no cache and no deadline, and all else as it was |
| Http3Theorems.ClosedIsNotUsed | src/http3.rs:300-306 | a call that finds a closed connection in the cache wants another |
| Http3Theorems.DeadlineAfterAct | src/http3.rs:240-254 | only a failure that is neither a 401 nor in `Only` mode leads to a deadline, 60 s after the clock was read |
| Http3Theorems.FallbackStarts | src/http3.rs:240-254 | in every run a deadline is set only by a call in `Preferred` mode that failed, other than by a 401, 60 s before that deadline |
| Http3Theorems.DeadlineIsNear | src/http3.rs:252 | in every run no deadline is further than 60 s away |
| Http3Theorems.NoQuicDuringFallback | src/http3.rs:212-239 | in every run, until the earliest deadline written or about to be and without a reset, calls in `Preferred` mode go to TCP |
| Http3Theorems.FallbackLastsExactlyWhen | src/http3.rs:212-252 | in all continuations calls go to TCP until the deadline or a reset, if and only if no call that has failed is about to write an earlier deadline |
| Http3Theorems.SlowerCallShortensThePeriod | src/http3.rs:252 | a run in which a call that failed earlier writes later, and makes a period of 61 s end at 60 s |
| RoutingModes.LoadRoutingRules | src/routing_rules.rs:75-122 | the first state, for each mode and outcome of the first load, and the refresher that `Auto` mode spawns whatever that was |
| RoutingModes.RunsBeginLoaded | src/routing_rules.rs:75-122 | the runs below begin with what `load` returns and with nothing else |
| RoutingModes.RoutingRules.SetMode | src/routing_rules.rs:179-216 | a new generation; the global mode at once, or a loader of that generation |
| RoutingModes.SetModeIsItsSteps | src/routing_rules.rs:179-214 | the steps of a mode update do what `SetMode` does and spawn its loader |
| RoutingModes.RoutingRules.FinishLoad | src/routing_rules.rs:195-212 | a loader installs its outcome, and goes on refreshing, only while its generation is current |
| RoutingModes.FinishLoadIsItsSteps | src/routing_rules.rs:195-212 | with nothing in between, the steps of a loader do what `FinishLoad` does |
| RoutingModes.RoutingRules.Refresh | src/routing_rules.rs:150-176 | the loop leaves state and generation of a run of turns, with mode updates while it sleeps and while it loads |
| RoutingModes.NothingAfterAnUpdate | src/routing_rules.rs:153-163 | in every such run the rules are those of the last load that succeeded before the first mode update, and from then on the refresher writes nothing |
| RoutingModes.RefreshIsItsSteps | src/routing_rules.rs:150-176 | with nothing in between, the steps of a refresher do what a turn of `Refresh` does |
| RoutingModes.OneTaskPerGeneration | src/routing_rules.rs:141-216 | in every run at most one live task holds a generation |
| RoutingModes.WritesAreCurrent | src/routing_rules.rs:157-163 | what a task is about to write it has checked after loading, and only a mode update since can have outdated it |
| RoutingModes.NoFallbackAfterRules | src/routing_rules.rs:195-212 | rules a generation has installed, at the start or in the run, it never replaces by direct routing |
| RoutingModes.InstalledIsRecorded | src/routing_rules.rs:101-120 | what counts as installed: rules the first load came up with, and rules a task has written |
| RoutingModes.LatestModeWins | src/routing_rules.rs:179-216 | once the last generation has no task the state stays for good, if and only if no older task had been overtaken between check and write |
| RoutingModes.GlobalIsOrphaned | src/routing_rules.rs:182-186 | after `set_mode(Global)` that holds, so the mode stays exactly when no task is about to write |
| RoutingModes.FailedSwitchStaysDirect | src/routing_rules.rs:204-211 | after a switch to auto whose load failed nothing tries again |
| RoutingModes.RulesStay | src/routing_rules.rs:157-163 | once its rules are installed, and no older task is about to write, a generation routes by rules until the next update |
| RoutingModes.GlobalCanBeUndone | src/routing_rules.rs:159-163 | a run in which an overtaken refresher undoes the global mode |
| ListCache.FetchRemoteLastModified | src/routing_rules.rs:517-542 | the answer of the first source that has one |
| ListCache.DownloadBody | src/routing_rules.rs:556-600 | the first source that does not refuse decides: its body, or an error if that breaks off |
| ListCache.FileSystem.Write | src/routing_rules.rs:722-759 | the file left, and whether writing succeeded, for every failure on the way |
| ListCache.GfwlistCache.constructor | src/routing_rules.rs:408-426 | the cache starts on disk, or empty in memory |
| ListCache.GfwlistCache.LoadBody | src/routing_rules.rs:455-514 | result, cache and file of a load are those of the specification |
| ListCache.SuccessIsCached | src/routing_rules.rs:503-513 | what a load returns is what the cache in use then holds |
| ListCache.FailureKeepsMemory | src/routing_rules.rs:455-514 | a failed load loses nothing that is in memory |
| ListCache.ServedExactlyWhenCurrent | src/routing_rules.rs:436-491 | nothing is downloaded exactly when the cached body can be read and bears the second of the HEAD, and then it is returned; else the result is that of the download |
| ListCache.ServedBySecond | src/routing_rules.rs:702-773 | in numbers: the cache is served exactly when it can be read and its time and the HEAD's lie in the same second, or both before 1970 |
| ListCache.NewerIsDownloaded | src/routing_rules.rs:702-716 | a list that is a second or more newer is never taken from the cache |
| ListCache.DownloadIsStored | src/routing_rules.rs:494-513 | what is downloaded is stored with its timestamp, in the file as long as nothing fails there, else in memory |
| ListCache.LoadingAgainIsServed | src/routing_rules.rs:455-514 | loading again while the source keeps its timestamp downloads nothing and returns the same |
| ListCache.AlwaysRecordedFromTheSameUrl | src/routing_rules.rs:495-501 | over every run of loads, a recorded timestamp came from the URL of its body |
| ListCache.MemoryIsForGood | src/routing_rules.rs:428-434 | over every run of loads the cache leaves the disk at most once |
| ListCache.SourceIsItsUrlExactlyWhen | src/routing_rules.rs:474-491 | the URL returned is where the body came from exactly when the cache is not current or holds a body of the URL that answered the HEAD |
| ListCache.ServedOnAnotherWord | src/routing_rules.rs:489-491 | a run of two loads from the empty cache in which a body of one mirror is returned as another's |
| DomainRules.LoadRules | src/routing_rules.rs:288-300 | the rules are those of both texts; a list that cannot be decoded or has no rule, and a custom file that cannot be read, are refused |
| DomainRules.Rules.Extend | src/routing_rules.rs:793-795 | rules are only added |
| DomainRules.MatchesExactly | src/routing_rules.rs:797-809 | a host matches exactly when its normal form is a rule or ends with a dot and a rule |
| DomainRules.ExtendOnlyAdds | src/routing_rules.rs:793-795 | extended rules match exactly what either set matches |
| DomainRules.CollectExactly | src/routing_rules.rs:825-832 | the rules loaded are exactly those its lines parse to |
| DomainRules.ListLineMeans | src/routing_rules.rs:852-865 | a list line that anchors a domain, in any case, with dots around it or more behind it, is a rule for it |
| DomainRules.OtherLinesMeanNothing | src/routing_rules.rs:852-856 | lines that anchor nothing and lines with a wildcard are no rules |
| DomainRules.CustomLineMeans | src/routing_rules.rs:846-850 | a custom line is a rule for the domain it holds, whatever space or comment is around it |
| DomainRules.RuleIsUsable | src/routing_rules.rs:846-881 | every rule loaded is a domain in lower case, by the codes of its characters, no IP address, and its own normal form |
| DomainRules.RuleMatchesItsDomain | src/routing_rules.rs:797-809 | every rule loaded matches itself and any labels before it |
| DomainRules.LowerByCode | src/routing_rules.rs:868 | which characters have a lower case, and which |
| DomainRules.NormalizeTwice | src/routing_rules.rs:867-869 | normalising twice is normalising once exactly when no whitespace hides behind dots |
| DomainRules.NotIdempotent | src/routing_rules.rs:867-869 | a host for which it is not |
| Socks5.ParseUdpDatagram | src/socks5.rs:137-192 | the reader with its moving offset computes the specification |
| Socks5.BuildUdpDatagram | src/socks5.rs:198-222 | what is built is the layout of the host's address; its assertion fails exactly for long names |
| Socks5.LayoutByByte | src/socks5.rs:134-192 | the format byte by byte: fragment 0, address types 1, 3 and 4, the length of a name, the port in network order |
| Socks5.ParseOfLayout | src/socks5.rs:134-192 | every layout of the format parses to its host, port and payload |
| Socks5.LayoutOfParsed | src/socks5.rs:134-192 | nothing else parses, and the payload is the suffix after the header |
| Socks5.RoundTrip | src/socks5.rs:194-222 | parsing what was built gives host, port and payload back exactly for hosts in standard form |
| Socks5.ParsedHostsAreBuilt | src/socks5.rs:208-216 | the assertion holds of every host that parsing yields, and building inverts parsing but for IP literals sent as names |
| Socks5.LiteralSentAsName | src/socks5.rs:200-207 | an IPv6 address sent as a name is a datagram that is built otherwise and comes back with another host |
| UdpAssociation.KeyIsInjective | src/tunnel.rs:284 | a key names one destination, whatever colons the host holds |
| UdpAssociation.Associate | src/tunnel.rs:236-306 | for every sequence of events each destination has one target, sent exactly what the datagrams for it carry, and other destinations have none |
| UdpAssociation.OneTaskPerDestination | src/tunnel.rs:285-299 | at most one target is ever spawned for a destination |
| UdpAssociation.LiveTasksGetEverything | src/tunnel.rs:268-303 | a live target was sent, in order, all payloads of well-formed datagrams for it from the pinned address |
| UdpAssociation.DeliveredExactlyWhen | src/tunnel.rs:284-303 | a well-formed datagram from the pinned address is lost exactly when the target of its destination exits, after an earlier datagram for it, among the events before; else it is sent on |
| UdpAssociation.LateDatagramIsLost | src/tunnel.rs:284-303 | a run in which a datagram after the exit of its target, with nothing else in between, is lost |
| UdpAssociation.NothingAfterExit | src/tunnel.rs:284-303 | after its target has exited a destination gets nothing more |
| UdpAssociation.AnswersNameTheirDestination | src/tunnel.rs:748-763 | answers can always be built, and name the destination as the client did exactly when its host is in standard form |

## Left out

- Session.IntoTokens: times are unbounded integers; a lifetime that overflows the source's clock types makes it panic, which is not modelled.
- Session.KeepFresh: no tunnel uses the session between its turns; the step system is about what happens when they do.
- SessionTheorems.OneRequestInFlight: runs begin after a successful login, as a session is only shared then.
- Session.TokenSession.Authorization: that a custom header may replace the Authorization header is not modelled, nor is in what order waiting tasks get the mutex.
- Http3Theorems.NoQuicDuringFallback: memory is sequentially consistent; so it is in module RoutingModes, where the 64-bit generation also does not wrap.
- Http3Theorems.CountersAreConserved: the counter is an unbounded integer, which the theorem bounds by the number of tunnels.
- ListCache.GfwlistCache.LoadBody: the file does not change between the check of its timestamp and the read; between loads it may.
- ListCache.GfwlistCache.constructor: whether the cache directory is accessible is a parameter; how that is probed, step by step, has no property across functions.
- UdpAssociation.Associate: a channel that is full delays the loop and loses nothing, so its capacity is not modelled.
- Relay.Serve: of the answers 400 and 502 only the status is modelled, not the text.
- The timestamp cache of the custom rule file: the list cache shows the same with more cases.
- What a target does with its channel (gateway websocket or direct socket) and its idle timers: the relay loop shows the same with more cases.
- DomainRules.LoadRules: Base64 and the UTF-8 check of the list body are one outcome, text or none; rules are parsed from text.
- The SOCKS5 handshake and request readers: they read fixed fields one after the other.
- Sockets, TLS, QUIC, websocket framing and the HTTP client: byte streams, channels and scripted answers stand for them.
- Settings, command line, gateway URLs, health checks, error wording, logging and the snapshot of connections: no property across functions.
- Direct-mode copying and the `poll` delegation of the gateway stream: library behaviour.

/** A SOCKS5 UDP association: one socket's datagrams, taken apart by destination
    (`handle_socks_udp_associate` and `send_udp_datagram_to_client` of `src/tunnel.rs`). */
module UdpAssociation {
  import opened Wrappers
  import opened Text
  import opened Utf8
  import opened Socks5

  /** What the loop comes upon. A target task may exit at any time, being idle too long or failing. */
  datatype Event =
    | ControlRead(n: nat)                    // 0 is the end of the control connection
    | ControlFailed
    | Received(from: nat, bytes: seq<byte>)  // addresses are numbered
    | ReceiveFailed
    | Idle
    | TargetExits(host: string, port: nat)

  /** A spawned task, with what was sent into its channel while it lived. */
  datatype Target = Target(host: string, port: nat, client: nat, sent: seq<seq<byte>>, live: bool)

  predicate Stops(event: Event) {
    event == ControlRead(0) || event.ControlFailed? || event.ReceiveFailed? || event.Idle?
  }

  function Key(host: string, port: nat): string {
    host + [':'] + Decimal(port)
  }

  /** Whatever colons the host holds, a key names one destination. */
  lemma KeyIsInjective(host: string, port: nat, host': string, port': nat)
    requires Key(host, port) == Key(host', port')
    ensures host == host' && port == port'
  {
    NoColonInDecimal(port);
    NoColonInDecimal(port');
    RSplitOnceOf(host, ':', Decimal(port), Key(host, port));
    RSplitOnceOf(host', ':', Decimal(port'), Key(host, port));
    ValueOfDecimal(port);
    ValueOfDecimal(port');
  }

  // ---- What the datagrams amount to, destination by destination ----

  /** The source of the first datagram, even one that is malformed. */
  function Pinned(events: seq<Event>, n: nat): Option<nat>
    requires n <= |events|
  {
    if n == 0 then None
    else if Pinned(events, n - 1).Some? then Pinned(events, n - 1)
    else if events[n - 1].Received? then Some(events[n - 1].from)
    else None
  }

  /** A well-formed datagram from the pinned address. */
  function Taken(event: Event, pinned: Option<nat>, ip: IpText): Option<Datagram> {
    if event.Received? && pinned == Some(event.from) && Parse(event.bytes, ip).Ok? then
      Some(Parse(event.bytes, ip).value)
    else
      None
  }

  datatype Channel = Unopened | Open(sent: seq<seq<byte>>) | Closed(sent: seq<seq<byte>>)

  function Send(channel: Channel, payload: seq<byte>): Channel {
    match channel
    case Unopened => Open([payload])
    case Open(sent) => Open(sent + [payload])
    case Closed(_) => channel
  }

  function Step(channel: Channel, event: Event, taken: Option<Datagram>, host: string, port: nat): Channel {
    match taken
    case Some(datagram) => SendTo(channel, datagram, host, port)
    case None => if event == TargetExits(host, port) && channel.Open? then Closed(channel.sent) else channel
  }

  function SendTo(channel: Channel, datagram: Datagram, host: string, port: nat): Channel {
    if datagram.host == host && datagram.port == port then Send(channel, datagram.payload) else channel
  }

  /** The channel of a destination after `n` events: its task is spawned by the first datagram for it,
      gets every later one in order while it lives, and none after that. */
  function ChannelOf(events: seq<Event>, n: nat, host: string, port: nat, ip: IpText): Channel
    requires n <= |events|
  {
    if n == 0 then Unopened
    else Step(ChannelOf(events, n - 1, host, port, ip), events[n - 1], Taken(events[n - 1], Pinned(events, n), ip),
              host, port)
  }

  // ---- The loop ----

  function AsChannel(target: Target): Channel {
    if target.live then Open(target.sent) else Closed(target.sent)
  }

  function Delivered(target: Target, payload: seq<byte>): Target {
    if target.live then target.(sent := target.sent + [payload]) else target
  }

  /** `targets` names every spawned task once. */
  predicate Indexed(targets: map<string, nat>, spawned: seq<Target>) {
    && (forall key <- targets ::
          targets[key] < |spawned| && Key(spawned[targets[key]].host, spawned[targets[key]].port) == key)
    && forall i | 0 <= i < |spawned| ::
         Key(spawned[i].host, spawned[i].port) in targets && targets[Key(spawned[i].host, spawned[i].port)] == i
  }

  type Channels = (string, nat) -> Channel

  function ChannelsAt(events: seq<Event>, n: nat, ip: IpText): Channels
    requires n <= |events|
  {
    (host: string, port: nat) => ChannelOf(events, n, host, port, ip)
  }

  /** Every task's channel is as `channels` has it, and no other destination has one. */
  ghost predicate Agree(targets: map<string, nat>, spawned: seq<Target>, channels: Channels) {
    && (forall i | 0 <= i < |spawned| :: AsChannel(spawned[i]) == channels(spawned[i].host, spawned[i].port))
    && (forall host, port | Key(host, port) !in targets :: channels(host, port) == Unopened)
  }

  ghost predicate Demultiplexed(targets: map<string, nat>, spawned: seq<Target>, events: seq<Event>, n: nat, ip: IpText)
    requires n <= |events|
  {
    && Agree(targets, spawned, ChannelsAt(events, n, ip))
    && forall i | 0 <= i < |spawned| :: Pinned(events, n) == Some(spawned[i].client)
  }

  lemma AtTheStart(events: seq<Event>, ip: IpText)
    ensures Demultiplexed(map[], [], events, 0, ip)
  {
  }

  lemma OneIsDelivered(targets: map<string, nat>, spawned: seq<Target>, before: Channels, after: Channels, k: nat,
                       datagram: Datagram)
    requires Indexed(targets, spawned) && Agree(targets, spawned, before)
    requires forall host, port :: after(host, port) == SendTo(before(host, port), datagram, host, port)
    requires k < |spawned| && spawned[k].host == datagram.host && spawned[k].port == datagram.port
    ensures var spawned' := spawned[k := Delivered(spawned[k], datagram.payload)];
            Indexed(targets, spawned') && Agree(targets, spawned', after)
  {
    forall i | 0 <= i < |spawned| && i != k ensures after(spawned[i].host, spawned[i].port) == AsChannel(spawned[i]) {
      assert Key(spawned[i].host, spawned[i].port) != Key(spawned[k].host, spawned[k].port);
    }
  }

  lemma OneIsSpawned(targets: map<string, nat>, spawned: seq<Target>, before: Channels, after: Channels, target: Target,
                     datagram: Datagram)
    requires Indexed(targets, spawned) && Agree(targets, spawned, before)
    requires forall host, port :: after(host, port) == SendTo(before(host, port), datagram, host, port)
    requires Key(datagram.host, datagram.port) !in targets
    requires target == Target(datagram.host, datagram.port, target.client, [datagram.payload], true)
    ensures var targets' := targets[Key(target.host, target.port) := |spawned|];
            Indexed(targets', spawned + [target]) && Agree(targets', spawned + [target], after)
  {
    assert before(datagram.host, datagram.port) == Unopened;
    forall i | 0 <= i < |spawned| ensures after(spawned[i].host, spawned[i].port) == AsChannel(spawned[i]) {
      assert Key(spawned[i].host, spawned[i].port) in targets;
    }
  }

  lemma OneExits(targets: map<string, nat>, spawned: seq<Target>, before: Channels, after: Channels, k: nat)
    requires Indexed(targets, spawned) && Agree(targets, spawned, before) && k < |spawned|
    requires forall host, port ::
               after(host, port)
                 == Step(before(host, port), TargetExits(spawned[k].host, spawned[k].port), None, host, port)
    ensures var spawned' := spawned[k := spawned[k].(live := false)];
            Indexed(targets, spawned') && Agree(targets, spawned', after)
  {
    forall i | 0 <= i < |spawned| && i != k ensures after(spawned[i].host, spawned[i].port) == AsChannel(spawned[i]) {
      assert Key(spawned[i].host, spawned[i].port) != Key(spawned[k].host, spawned[k].port);
    }
  }

  lemma NoneExits(targets: map<string, nat>, spawned: seq<Target>, before: Channels, after: Channels, exited: Event)
    requires Indexed(targets, spawned) && Agree(targets, spawned, before)
    requires exited.TargetExits? && Key(exited.host, exited.port) !in targets
    requires forall host, port :: after(host, port) == Step(before(host, port), exited, None, host, port)
    ensures Agree(targets, spawned, after)
  {
    forall i | 0 <= i < |spawned| ensures after(spawned[i].host, spawned[i].port) == AsChannel(spawned[i]) {
      assert Key(spawned[i].host, spawned[i].port) in targets;
    }
  }

  lemma NothingHappens(targets: map<string, nat>, spawned: seq<Target>, events: seq<Event>, n: nat, ip: IpText)
    requires n < |events| && Demultiplexed(targets, spawned, events, n, ip)
    requires Taken(events[n], Pinned(events, n + 1), ip).None? && !events[n].TargetExits?
    ensures Demultiplexed(targets, spawned, events, n + 1, ip)
  {
  }

  /** `handle_socks_udp_associate`: one task for each destination, sent exactly the payloads of the
      datagrams for it that came from the pinned address, in order, for as long as it lives. */
  method Associate(events: seq<Event>, ip: IpText) returns (targets: map<string, nat>, spawned: seq<Target>, used: nat)
    ensures used <= |events| && forall i | 0 <= i < used :: !Stops(events[i])
    ensures used < |events| ==> Stops(events[used])
    ensures forall i | 0 <= i < used ::
              && (events[i].ControlRead? ==> events[i].n > 0)
              && (events[i].ControlRead? || events[i].Received? || events[i].TargetExits?)
    ensures Indexed(targets, spawned) && Demultiplexed(targets, spawned, events, used, ip)
  {
    targets, spawned, used := map[], [], 0;
    AtTheStart(events, ip);
    var clientAddr: Option<nat> := None;
    while used < |events|
      invariant used <= |events| && forall i | 0 <= i < used :: !Stops(events[i])
      invariant clientAddr == Pinned(events, used)
      invariant Indexed(targets, spawned) && Demultiplexed(targets, spawned, events, used, ip)
    {
      match events[used] {
        case ControlRead(n) =>
          if n == 0 {
            return;
          }
          NothingHappens(targets, spawned, events, used, ip);
        case ControlFailed => return;
        case ReceiveFailed => return;
        case Idle => return;
        case Received(from, bytes) =>
          targets, spawned, clientAddr := Receive(targets, spawned, clientAddr, from, bytes, ip, events, used);
        case TargetExits(host, port) =>
          AfterExit(events, used, ip);
          spawned := Exit(targets, spawned, host, port, ChannelsAt(events, used, ip), ChannelsAt(events, used + 1, ip));
      }
      used := used + 1;
    }
  }

  /** The branch of that loop for a datagram, which may be from elsewhere, or malformed. */
  method Receive(targets: map<string, nat>, spawned: seq<Target>, clientAddr: Option<nat>, from: nat, bytes: seq<byte>,
                 ip: IpText, ghost events: seq<Event>, ghost n: nat)
    returns (targets': map<string, nat>, spawned': seq<Target>, clientAddr': Option<nat>)
    requires n < |events| && events[n] == Received(from, bytes) && clientAddr == Pinned(events, n)
    requires Indexed(targets, spawned) && Demultiplexed(targets, spawned, events, n, ip)
    ensures clientAddr' == Pinned(events, n + 1)
    ensures Indexed(targets', spawned') && Demultiplexed(targets', spawned', events, n + 1, ip)
  {
    targets', spawned', clientAddr' := targets, spawned, clientAddr;
    if clientAddr.None? {
      clientAddr' := Some(from);
    }
    if clientAddr' != Some(from) {
      NothingHappens(targets, spawned, events, n, ip);
      return;
    }
    var datagram := ParseUdpDatagram(bytes, ip);
    if datagram.Err? {
      NothingHappens(targets, spawned, events, n, ip);
      return;
    }
    AfterTaken(events, n, ip, datagram.value);
    targets', spawned' := Dispatch(targets, spawned, from, datagram.value, ChannelsAt(events, n, ip),
                                   ChannelsAt(events, n + 1, ip));
  }

  /** The end of that branch: a target for the destination is found, or spawned, and sent to. */
  method Dispatch(targets: map<string, nat>, spawned: seq<Target>, from: nat, datagram: Datagram,
                  ghost before: Channels, ghost after: Channels)
    returns (targets': map<string, nat>, spawned': seq<Target>)
    requires Indexed(targets, spawned) && Agree(targets, spawned, before)
    requires forall host, port :: after(host, port) == SendTo(before(host, port), datagram, host, port)
    requires forall i | 0 <= i < |spawned| :: spawned[i].client == from
    ensures Indexed(targets', spawned') && Agree(targets', spawned', after)
    ensures forall i | 0 <= i < |spawned'| :: spawned'[i].client == from
  {
    targets', spawned' := targets, spawned;
    var key := Key(datagram.host, datagram.port);
    if key in targets {
      var k := targets[key];
      KeyIsInjective(datagram.host, datagram.port, spawned[k].host, spawned[k].port);
      OneIsDelivered(targets, spawned, before, after, k, datagram);
      spawned' := spawned[k := Delivered(spawned[k], datagram.payload)];
    } else {
      var target := Target(datagram.host, datagram.port, from, [datagram.payload], true);
      OneIsSpawned(targets, spawned, before, after, target, datagram);
      targets' := targets[key := |spawned|];
      spawned' := spawned + [target];
    }
  }

  /** Not a step of the loop: a target task ends, and its receiver with it. */
  method Exit(targets: map<string, nat>, spawned: seq<Target>, host: string, port: nat, ghost before: Channels,
              ghost after: Channels)
    returns (spawned': seq<Target>)
    requires Indexed(targets, spawned) && Agree(targets, spawned, before)
    requires forall h, p :: after(h, p) == Step(before(h, p), TargetExits(host, port), None, h, p)
    ensures Indexed(targets, spawned') && Agree(targets, spawned', after)
    ensures |spawned'| == |spawned| && forall i | 0 <= i < |spawned| :: spawned'[i].client == spawned[i].client
  {
    spawned' := spawned;
    var key := Key(host, port);
    if key in targets {
      var k := targets[key];
      KeyIsInjective(host, port, spawned[k].host, spawned[k].port);
      OneExits(targets, spawned, before, after, k);
      spawned' := spawned[k := spawned[k].(live := false)];
    } else {
      NoneExits(targets, spawned, before, after, TargetExits(host, port));
    }
  }

  lemma AfterExit(events: seq<Event>, n: nat, ip: IpText)
    requires n < |events| && events[n].TargetExits?
    ensures Pinned(events, n + 1) == Pinned(events, n)
    ensures var before, after := ChannelsAt(events, n, ip), ChannelsAt(events, n + 1, ip);
            forall host, port :: after(host, port) == Step(before(host, port), events[n], None, host, port)
  {
  }

  lemma AfterTaken(events: seq<Event>, n: nat, ip: IpText, datagram: Datagram)
    requires n < |events| && Taken(events[n], Pinned(events, n + 1), ip) == Some(datagram)
    ensures var before, after := ChannelsAt(events, n, ip), ChannelsAt(events, n + 1, ip);
            forall host, port :: after(host, port) == SendTo(before(host, port), datagram, host, port)
  {
  }

  // ---- What follows ----

  /** At most one task is ever spawned for a destination. */
  lemma OneTaskPerDestination(targets: map<string, nat>, spawned: seq<Target>, i: nat, j: nat)
    requires Indexed(targets, spawned) && i < |spawned| && j < |spawned|
    requires spawned[i].host == spawned[j].host && spawned[i].port == spawned[j].port
    ensures i == j
  {
    assert Key(spawned[i].host, spawned[i].port) == Key(spawned[j].host, spawned[j].port);
  }

  function PayloadFor(taken: Option<Datagram>, host: string, port: nat): seq<seq<byte>> {
    match taken
    case Some(datagram) => if datagram.host == host && datagram.port == port then [datagram.payload] else []
    case None => []
  }

  /** The payloads for a destination, in order. */
  function Payloads(events: seq<Event>, n: nat, host: string, port: nat, ip: IpText): seq<seq<byte>>
    requires n <= |events|
  {
    if n == 0 then []
    else Payloads(events, n - 1, host, port, ip) + PayloadFor(Taken(events[n - 1], Pinned(events, n), ip), host, port)
  }

  predicate HasAll(channel: Channel, payloads: seq<seq<byte>>) {
    match channel
    case Unopened => payloads == []
    case Open(sent) => sent == payloads
    case Closed(sent) => sent <= payloads
  }

  lemma StepHasAll(channel: Channel, payloads: seq<seq<byte>>, event: Event, taken: Option<Datagram>, host: string,
                   port: nat)
    requires HasAll(channel, payloads)
    ensures HasAll(Step(channel, event, taken, host, port), payloads + PayloadFor(taken, host, port))
  {
  }

  /** A live task was sent all of them; one that has exited, those up to its exit. */
  lemma {:induction false} LiveTasksGetEverything(events: seq<Event>, n: nat, host: string, port: nat, ip: IpText)
    requires n <= |events|
    ensures HasAll(ChannelOf(events, n, host, port, ip), Payloads(events, n, host, port, ip))
  {
    if n > 0 {
      LiveTasksGetEverything(events, n - 1, host, port, ip);
      StepHasAll(ChannelOf(events, n - 1, host, port, ip), Payloads(events, n - 1, host, port, ip), events[n - 1],
                 Taken(events[n - 1], Pinned(events, n), ip), host, port);
    }
  }

  /** Of every event, the well-formed datagram from the pinned address that it is, if it is one. */
  function AllTaken(events: seq<Event>, ip: IpText): (taken: seq<Option<Datagram>>)
    ensures |taken| == |events|
    ensures forall i | 0 <= i < |events| :: taken[i] == Taken(events[i], Pinned(events, i + 1), ip)
  {
    seq(|events|, i requires 0 <= i < |events| => Taken(events[i], Pinned(events, i + 1), ip))
  }

  predicate IsFor(taken: Option<Datagram>, host: string, port: nat) {
    taken.Some? && taken.value.host == host && taken.value.port == port
  }

  /** One of the first `n` events is a datagram for the destination. */
  predicate Seen(taken: seq<Option<Datagram>>, n: nat, host: string, port: nat)
    requires n <= |taken|
  {
    exists m :: 0 <= m < n && IsFor(taken[m], host, port)
  }

  /** Among the first `n` events the target of the destination exits, after a datagram for it. */
  predicate ExitSeen(events: seq<Event>, taken: seq<Option<Datagram>>, n: nat, host: string, port: nat)
    requires n <= |events| == |taken|
  {
    exists k :: 0 <= k < n && events[k] == TargetExits(host, port) && Seen(taken, k, host, port)
  }

  /** A channel, from the datagrams taken. */
  function ChannelAlong(events: seq<Event>, taken: seq<Option<Datagram>>, n: nat, host: string, port: nat): Channel
    requires n <= |events| == |taken|
  {
    if n == 0 then Unopened
    else Step(ChannelAlong(events, taken, n - 1, host, port), events[n - 1], taken[n - 1], host, port)
  }

  lemma OneMoreEvent(events: seq<Event>, n: nat, host: string, port: nat, ip: IpText, taken: Option<Datagram>)
    requires n < |events| && taken == AllTaken(events, ip)[n]
    ensures ChannelOf(events, n + 1, host, port, ip)
         == Step(ChannelOf(events, n, host, port, ip), events[n], taken, host, port)
  {
  }

  lemma {:induction false} SameChannel(events: seq<Event>, n: nat, host: string, port: nat, ip: IpText,
                                       taken: seq<Option<Datagram>>)
    requires n <= |events| && taken == AllTaken(events, ip)
    ensures ChannelOf(events, n, host, port, ip) == ChannelAlong(events, taken, n, host, port)
  {
    if n > 0 {
      SameChannel(events, n - 1, host, port, ip, taken);
      OneMoreEvent(events, n - 1, host, port, ip, taken[n - 1]);
    }
  }

  lemma SeenOneMore(taken: seq<Option<Datagram>>, n: nat, host: string, port: nat)
    requires n < |taken|
    ensures Seen(taken, n + 1, host, port) <==> Seen(taken, n, host, port) || IsFor(taken[n], host, port)
  {
  }

  lemma ExitSeenOneMore(events: seq<Event>, taken: seq<Option<Datagram>>, n: nat, host: string, port: nat)
    requires n < |events| == |taken|
    ensures ExitSeen(events, taken, n + 1, host, port)
       <==> ExitSeen(events, taken, n, host, port)
            || (events[n] == TargetExits(host, port) && Seen(taken, n, host, port))
  {
  }

  /** A destination has a target once a datagram for it was taken, until that target exits. */
  lemma {:induction false} ChannelByEvents(events: seq<Event>, taken: seq<Option<Datagram>>, n: nat, host: string,
                                           port: nat)
    requires n <= |events| == |taken|
    requires forall i | 0 <= i < |events| :: taken[i].Some? ==> events[i].Received?
    ensures ChannelAlong(events, taken, n, host, port).Unopened? <==> !Seen(taken, n, host, port)
    ensures ChannelAlong(events, taken, n, host, port).Closed? <==> ExitSeen(events, taken, n, host, port)
  {
    if n > 0 {
      ChannelByEvents(events, taken, n - 1, host, port);
      SeenOneMore(taken, n - 1, host, port);
      ExitSeenOneMore(events, taken, n - 1, host, port);
    }
  }

  lemma TakenAreReceived(events: seq<Event>, ip: IpText)
    ensures forall i | 0 <= i < |events| :: AllTaken(events, ip)[i].Some? ==> events[i].Received?
  {
  }

  function SentOn(channel: Channel): seq<seq<byte>> {
    if channel.Unopened? then [] else channel.sent
  }

  /** A well-formed datagram from the pinned address is lost exactly when, among the events before it,
      the target of its destination exits after an earlier datagram for it; else it is sent on. */
  lemma DeliveredExactlyWhen(events: seq<Event>, n: nat, ip: IpText, datagram: Datagram)
    requires n < |events| && Taken(events[n], Pinned(events, n + 1), ip) == Some(datagram)
    ensures var host, port := datagram.host, datagram.port;
            var before, after := ChannelOf(events, n, host, port, ip), ChannelOf(events, n + 1, host, port, ip);
            if ExitSeen(events, AllTaken(events, ip), n, host, port) then after == before
            else after == Open(SentOn(before) + [datagram.payload])
  {
    var host, port, taken := datagram.host, datagram.port, AllTaken(events, ip);
    TakenAreReceived(events, ip);
    SameChannel(events, n, host, port, ip, taken);
    SameChannel(events, n + 1, host, port, ip, taken);
    ChannelByEvents(events, taken, n, host, port);
    SendToIts(ChannelAlong(events, taken, n, host, port), events[n], datagram);
  }

  lemma SendToIts(channel: Channel, event: Event, datagram: Datagram)
    ensures Step(channel, event, Some(datagram), datagram.host, datagram.port)
         == if channel.Closed? then channel else Open(SentOn(channel) + [datagram.payload])
  {
  }

  /** It happens: the same datagram before and after its target has exited, and no other datagram or
      target in between, is delivered once. */
  lemma LateDatagramIsLost(data: seq<byte>, ip: IpText, datagram: Datagram) returns (events: seq<Event>)
    requires Parse(data, ip) == Ok(datagram)
    ensures events == [Received(1, data), TargetExits(datagram.host, datagram.port), Received(1, data)]
    ensures ChannelOf(events, 3, datagram.host, datagram.port, ip) == Closed([datagram.payload])
    ensures Payloads(events, 3, datagram.host, datagram.port, ip) == [datagram.payload, datagram.payload]
  {
    events := [Received(1, data), TargetExits(datagram.host, datagram.port), Received(1, data)];
    assert Pinned(events, 1) == Some(1) && Pinned(events, 2) == Some(1) && Pinned(events, 3) == Some(1);
    assert Taken(events[0], Some(1), ip) == Some(datagram) && Taken(events[2], Some(1), ip) == Some(datagram);
    assert ChannelOf(events, 0, datagram.host, datagram.port, ip) == Unopened;
    assert ChannelOf(events, 1, datagram.host, datagram.port, ip) == Open([datagram.payload]);
    assert ChannelOf(events, 2, datagram.host, datagram.port, ip) == Closed([datagram.payload]);
    assert Payloads(events, 1, datagram.host, datagram.port, ip) == [] + [datagram.payload];
    assert Payloads(events, 2, datagram.host, datagram.port, ip) == [datagram.payload] + [];
  }

  /** The entry of a task that has exited is never replaced: its destination gets nothing more for the
      rest of the association, and no new task. */
  lemma {:induction false} NothingAfterExit(events: seq<Event>, m: nat, n: nat, host: string, port: nat, ip: IpText)
    requires m <= n <= |events| && ChannelOf(events, m, host, port, ip).Closed?
    ensures ChannelOf(events, n, host, port, ip) == ChannelOf(events, m, host, port, ip)
    decreases n
  {
    if m < n {
      NothingAfterExit(events, m, n - 1, host, port, ip);
    }
  }

  /** The task of a well-formed datagram can always build its answers, and they name the destination
      as the client did exactly when its host is canonical: always, unless it was sent as a name. */
  lemma AnswersNameTheirDestination(data: seq<byte>, ip: IpText, answer: seq<byte>)
    requires Faithful(ip) && Parse(data, ip).Ok?
    ensures var datagram := Parse(data, ip).value;
            var address := AddressFor(datagram.host, ip);
            && address.Some? && AddressOk(address.value)
            && (Parse(Layout([0, 0], address.value, datagram.port, answer), ip)
                == Ok(Datagram(datagram.host, datagram.port, answer))
                <==> Canonical(datagram.host, ip))
            && (!ReadAddress(data).value.Name? ==> Canonical(datagram.host, ip))
  {
    var datagram := Parse(data, ip).value;
    ParsedHostsAreBuilt(data, ip);
    LayoutOfParsed(data, ip);
    RoundTrip(datagram.host, datagram.port, answer, ip);
    if !ReadAddress(data).value.Name? {
      AddressBack(ReadAddress(data).value, datagram.host, ip);
      ParseOfLayout([0, 0], ReadAddress(data).value, datagram.port, answer, ip);
    }
  }
}

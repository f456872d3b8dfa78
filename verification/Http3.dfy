/** The HTTP/3 session cache and the TCP fallback (`src/http3.rs`), one call at a time. What calls do
    to each other is the subject of module Http3Protocol, which uses the same functions. */
module Http3 {
  import opened Wrappers
  import opened Clock

  const FALLBACK_PERIOD: nat := 60 * SECOND
  const UNAUTHORIZED: nat := 401

  datatype Mode = Off | Preferred | Only

  datatype Key = Key(host: string, port: nat, insecure: bool)

  /** `WsError`: the gateway answered with another status than asked for, or anything else. */
  datatype Failure = Http(status: nat) | Broken

  /** What a websocket handshake came to, over HTTP/3 (a timeout is a failure) or over TCP. */
  datatype Answer = Opened | Failed(failure: Failure)

  /** What `connect` returns: `Ok(Some)`, `Ok(None)` or an error. */
  datatype Verdict = Stream | UseTcp | Refused(failure: Failure)

  /** What the network does with one request: whether the cached connection turns out closed, the
      connection that is established if one is needed, and the answer. */
  datatype Try = Try(closed: bool, established: Option<nat>, answer: Answer)

  /** Whether HTTP/3 is put off at `now`; a period that is over is forgotten. */
  predicate PutOff(until: Option<nat>, now: nat) {
    until.Some? && until.value > now
  }

  function Remembered(until: Option<nat>, now: nat): Option<nat> {
    if PutOff(until, now) then until else None
  }

  predicate Usable(cache: map<Key, nat>, key: Key, closed: bool) {
    key in cache && !closed
  }

  /** `session`: the connection to use, if there is one, and the cache it leaves. */
  function Lookup(cache: map<Key, nat>, key: Key, closed: bool, established: Option<nat>)
    : (Option<nat>, map<Key, nat>)
  {
    if Usable(cache, key, closed) then (Some(cache[key]), cache)
    else if established.Some? then (established, cache[key := established.value])
    else (None, cache - {key})
  }

  predicate IsBroken(answer: Answer) {
    answer == Failed(Broken)
  }

  /** `connect`, of what `try_connect` returned. */
  function Conclude(answer: Answer, only: bool): Verdict {
    match answer
    case Opened => Stream
    case Failed(failure) => if failure == Http(UNAUTHORIZED) || only then Refused(failure) else UseTcp
  }

  /** TCP is used after any failure but a 401, unless HTTP/3 is the only transport. */
  lemma ConcludesExactly(answer: Answer, only: bool)
    ensures Conclude(answer, only) == Stream <==> answer == Opened
    ensures Conclude(answer, only) == UseTcp <==> answer.Failed? && answer != Failed(Http(401)) && !only
    ensures Conclude(answer, only).Refused? <==> answer.Failed? && (answer == Failed(Http(401)) || only)
    ensures Conclude(answer, only).Refused? ==> answer == Failed(Conclude(answer, only).failure)
  {
  }

  /** Requests go to a cached connection first, or to a new one; another is made only when a cached
      one breaks, and goes to the connection that replaces it. */
  predicate TriedProperly(cache: map<Key, nat>, key: Key, first: Try, second: Try,
                          answer: Answer, asked: seq<nat>, after: map<Key, nat>)
  {
    && |asked| <= 2
    && (if !Usable(cache, key, first.closed) then
          && (first.established.None? ==> asked == [] && answer == Failed(Broken) && after == cache - {key})
          && (first.established.Some? ==>
                asked == [first.established.value] && answer == first.answer && after == cache[key := asked[0]])
        else if !IsBroken(first.answer) then
          asked == [cache[key]] && answer == first.answer && after == cache
        else if second.established.None? then
          asked == [cache[key]] && answer == Failed(Broken) && after == cache - {key}
        else
          && asked == [cache[key], second.established.value] && answer == second.answer
          && after == if IsBroken(answer) then cache - {key} else cache[key := second.established.value])
  }

  /** What calls share, one call at a time: the cache and the deadline. */
  datatype Held = Held(cache: map<Key, nat>, until: Option<nat>)

  /** What `connect` does and leaves. A call starts the fallback period exactly when it fails without
      being told 401 and may fall back; while the period lasts, such a call asks nothing and leaves it
      as it is. */
  ghost predicate ConnectedProperly(before: Held, key: Key, only: bool, now: nat, first: Try, second: Try, later: nat,
                                    verdict: Verdict, asked: seq<nat>, after: Held)
  {
    if !only && PutOff(before.until, now) then
      verdict == UseTcp && asked == [] && after == before
    else
      exists answer ::
        && TriedProperly(before.cache, key, first, second, answer, asked, after.cache)
        && verdict == Conclude(answer, only)
        && after.until == if only then before.until
                          else if verdict.UseTcp? then Some(later + FALLBACK_PERIOD)
                          else None
  }

  class Connections {
    var cache: map<Key, nat>
    var fallbackUntil: Option<nat>

    ghost function Value(): Held
      reads this
    {
      Held(cache, fallbackUntil)
    }

    constructor ()
      ensures cache == map[] && fallbackUntil == None
    {
      cache, fallbackUntil := map[], None;
    }

    method ResetSessions()
      modifies this
      ensures cache == map[] && fallbackUntil == None
    {
      cache := map[];
      fallbackUntil := None;
    }

    method FallbackActive(now: nat) returns (active: bool)
      modifies this`fallbackUntil
      ensures active == PutOff(old(fallbackUntil), now)
      ensures fallbackUntil == Remembered(old(fallbackUntil), now)
    {
      match fallbackUntil {
        case Some(instant) =>
          if instant > now {
            active := true;
          } else {
            fallbackUntil := None;
            active := false;
          }
        case None =>
          active := false;
      }
    }

    method Session(key: Key, closed: bool, established: Option<nat>) returns (session: Option<nat>, cached: bool)
      modifies this`cache
      ensures (session, cache) == Lookup(old(cache), key, closed, established)
      ensures cached == Usable(old(cache), key, closed)
    {
      if key in cache {
        if !closed {
          return Some(cache[key]), true;
        }
        cache := cache - {key};
      }
      if established.None? {
        assert key !in old(cache) ==> old(cache) - {key} == cache;
        return None, false;
      }
      cache := cache[key := established.value];
      assert cache == old(cache)[key := established.value];
      return established, false;
    }

    method TryConnect(key: Key, first: Try, second: Try) returns (answer: Answer, asked: seq<nat>)
      modifies this`cache
      ensures TriedProperly(old(cache), key, first, second, answer, asked, cache)
    {
      var session, cached := Session(key, first.closed, first.established);
      if session.None? {
        return Failed(Broken), [];
      }
      asked := [session.value];
      answer := first.answer;
      if !cached || !IsBroken(answer) {
        return;
      }
      cache := cache - {key};
      session, cached := Session(key, second.closed, second.established);
      if session.None? {
        return Failed(Broken), asked;
      }
      asked := asked + [session.value];
      answer := second.answer;
      if IsBroken(answer) {
        cache := cache - {key};
      }
    }

    method Connect(key: Key, only: bool, now: nat, first: Try, second: Try, later: nat)
      returns (verdict: Verdict, asked: seq<nat>)
      modifies this
      ensures ConnectedProperly(old(Value()), key, only, now, first, second, later, verdict, asked, Value())
      ensures |asked| <= 2
      ensures only ==> !verdict.UseTcp?
    {
      if !only {
        var active := FallbackActive(now);
        if active {
          return UseTcp, [];
        }
      }
      var answer;
      answer, asked := TryConnect(key, first, second);
      verdict := Conclude(answer, only);
      if verdict.UseTcp? {
        fallbackUntil := Some(later + FALLBACK_PERIOD);
      }
    }
  }

  /** The mode the proxy starts with: where HTTP/3 is not usable, `Preferred` is ignored and `Only` is
      an error. */
  function StartMode(settings: Mode, usable: bool): (mode: Result<Mode>)
    ensures mode.Ok? && mode.value != Off ==> usable && mode.value == settings
    ensures mode.Err? <==> settings.Only? && !usable
    ensures usable ==> mode == Ok(settings)
    ensures !usable && mode.Ok? ==> mode.value.Off?
  {
    if usable then Ok(settings) else if settings.Only? then Err else Ok(Off)
  }

  /** `Switch`, and the guard in front of the mode updates it gets: with a gateway or an
      upstream proxy that rules HTTP/3 out it stays off. */
  class Switch {
    var mode: Mode
    const usable: bool

    ghost predicate Valid()
      reads this
    {
      mode != Off ==> usable
    }

    constructor (mode: Mode, usable: bool)
      requires mode != Off ==> usable
      ensures Valid() && this.usable == usable && this.mode == mode
    {
      this.usable := usable;
      this.mode := mode;
    }

    method Update(mode: Mode)
      requires Valid()
      modifies this
      ensures Valid()
      ensures this.mode == if usable || mode.Off? then mode else old(this.mode)
    {
      if usable || mode.Off? {
        this.mode := mode;
      }
    }
  }
}

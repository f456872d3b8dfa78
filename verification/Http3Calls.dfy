/** A `connect` that no other call interrupts: the steps of module Http3Protocol do what
    `Connections.Connect` of module Http3 does. */
module Http3Calls {
  import opened Wrappers
  import opened Http3
  import opened Http3Protocol
  import opened Http3Theorems

  /** What all share and one call. */
  datatype At = At(s: Shared, call: Call)

  function Do(at: At, id: nat, action: Action): At
    requires CanAct(at.s, at.call, action)
  {
    At(NextShared(at.s, id, at.call, action), NextCall(at.s, at.call, action))
  }

  /** The steps below are those of the protocol. */
  lemma DoIsAStep(w: World, id: nat, action: Action)
    requires Enabled(w, Act(id, action))
    ensures var after := Do(At(w.shared, w.calls[id]), id, action);
            Apply(w, Act(id, action)) == World(after.s, w.calls[id := after.call])
  {
  }

  function Waited(at: At, elapsed: nat): (after: At)
    ensures after == at.(s := AfterEvent(at.s, Tick(elapsed)))
  {
    at.(s := at.s.(clock := at.s.clock + elapsed))
  }

  /** Whether a connection can be established if one is needed, how long that and the answer take, and
      the answer. */
  datatype Network = Network(reachable: bool, elapsed: nat, answer: Answer)

  /** `session`, with the lock held from its beginning to its end. */
  function Looked(at: At, id: nat, n: Network): At
    requires at.call.stage.Wanting? && at.s.lock == None
  {
    var entered := Waited(Do(at, id, Enter), n.elapsed);
    if entered.call.stage.Establishing? then Do(entered, id, Establish(n.reachable)) else entered
  }

  /** `open_stream_in_time`, if there is a connection, and forgetting that if it breaks. */
  function Answered(looked: At, id: nat, answer: Answer): At
    requires looked.s.lock == None
  {
    if !looked.call.stage.Requesting? then
      looked
    else
      var asked := Do(looked, id, Respond(answer));
      if asked.call.stage.Removing? && asked.s.lock == None then Do(asked, id, Remove) else asked
  }

  function AskedOnce(at: At, id: nat, n: Network): At
    requires at.call.stage.Wanting? && at.s.lock == None
  {
    var looked := Looked(at, id, n);
    if looked.s.lock == None then Answered(looked, id, n.answer) else looked
  }

  /** `try_connect`. */
  function Tried(at: At, id: nat, first: Network, second: Network): At
    requires at.call.stage.Wanting? && at.s.lock == None
  {
    var once := AskedOnce(at, id, first);
    if once.call.stage.Wanting? && once.s.lock == None then AskedOnce(once, id, second) else once
  }

  /** The tunnel's task is started, or the fallback period is. */
  function Concluded(at: At, id: nat, pump: nat): At {
    if at.call.stage.Counted? && pump !in at.s.pumps then Do(at, id, Guard(pump))
    else if at.call.stage.Deferring? then Do(at, id, Defer)
    else at
  }

  /** `connect`, from where the mode has been read. */
  function Connected(at: At, id: nat, first: Network, second: Network, pump: nat): At
    requires at.s.lock == None && (at.call.stage.Checking? || at.call.stage.Wanting?)
  {
    var checked := if at.call.stage.Checking? then Do(at, id, Check) else at;
    if checked.call.stage.Wanting? then Concluded(Tried(checked, id, first, second), id, pump) else checked
  }

  // ---- One lookup ----

  predicate IsClosed(s: Shared, key: Key) {
    key in s.cache && s.cache[key] < |s.connections| && s.connections[s.cache[key]].closed
  }

  function Established(s: Shared, n: Network): Option<nat> {
    if n.reachable then Some(|s.connections|) else None
  }

  function TryOf(s: Shared, key: Key, n: Network): Try {
    Try(IsClosed(s, key), Established(s, n), n.answer)
  }

  /** What a try meets, whichever connection is cached when it is made. */
  predicate IsTryOf(t: Try, n: Network) {
    t.answer == n.answer && (t.established.Some? <==> n.reachable)
  }

  /** Enter and Establish are `session`: they use what `Lookup` uses and leave the cache it leaves. */
  lemma LookupIsItsSteps(at: At, id: nat, n: Network)
    requires SharedOk(at.s) && at.call.stage.Wanting? && at.s.lock == None
    ensures var key, after := at.call.key, Looked(at, id, n);
            var (session, cache) := Lookup(at.s.cache, key, IsClosed(at.s, key), Established(at.s, n));
            && after.s.cache == cache && after.s.lock == None && after.s.pumps == at.s.pumps
            && after.s.until == at.s.until && after.s.clock == at.s.clock + n.elapsed
            && after.s.canRenew == at.s.canRenew
            && after.call
            == (if session.Some? then
                  Request(at.call, at.call.stage.broken, session.value, Usable(at.s.cache, key, IsClosed(at.s, key)))
                else
                  at.call.(stage := AfterFailure(at.call, Broken, at.s.canRenew, after.s.clock)))
  {
    var key := at.call.key;
    assert Cached(at.s, key) <==> Usable(at.s.cache, key, IsClosed(at.s, key));
    assert (at.s.cache - {key})[key := |at.s.connections|] == at.s.cache[key := |at.s.connections|];
  }

  // ---- The answers ----

  /** Where a call stands when `try_connect` has returned `answer`. */
  predicate StandsAt(call: Call, s: Shared, answer: Answer) {
    match answer
    case Opened => call.stage.Counted?
    case Failed(failure) => call.stage == AfterFailure(call, failure, s.canRenew, s.clock)
  }

  /** The same of `connect`. */
  predicate Shows(before: Call, s: Shared, call: Call, verdict: Verdict) {
    match verdict
    case Stream => call.stage == Ended(true)
    case UseTcp => call.stage == Dialling && call.dialled
    case Refused(failure) => call.stage == AfterError(before, failure, s.canRenew)
  }

  /** The parts of the shared state that a lookup and a request leave alone. */
  predicate SameBut(s: Shared, s': Shared, elapsed: nat) {
    && s'.lock == None && s'.pumps == s.pumps && s'.until == s.until
    && s'.clock == s.clock + elapsed && s'.canRenew == s.canRenew
  }

  /** One answer, and what is left of its connection if it breaks. */
  lemma OneAnswer(looked: At, id: nat, answer: Answer)
    requires looked.call.stage.Requesting? && looked.s.lock == None
    ensures var stage, after := looked.call.stage, Answered(looked, id, answer);
            && SameBut(looked.s, after.s, 0)
            && after.call == looked.call.(stage := after.call.stage)
            && (if IsBroken(answer) && (stage.broken.Some? || stage.cached) then
                  && after.s.cache == looked.s.cache - {looked.call.key}
                  && (if stage.broken.Some? then StandsAt(after.call, after.s, answer)
                      else after.call.stage == Wanting(Some(stage.on)))
                else
                  StandsAt(after.call, after.s, answer) && after.s.cache == looked.s.cache)
  {
  }

  /** One request, on the connection looked up: where it leaves the call and the cache. */
  predicate OnceDone(at: At, t: Try, elapsed: nat, after: At) {
    && at.call.stage.Wanting?
    && SameBut(at.s, after.s, elapsed)
    && after.call == at.call.(stage := after.call.stage, asked := after.call.asked)
    && var key, again := at.call.key, at.call.stage.broken.Some?;
       var (session, cache) := Lookup(at.s.cache, key, t.closed, t.established);
       && after.call.asked == at.call.asked + (if session.Some? then [session.value] else [])
       && (if session.None? then
             StandsAt(after.call, after.s, Failed(Broken)) && after.s.cache == cache
           else if IsBroken(t.answer) && (again || Usable(at.s.cache, key, t.closed)) then
             && after.s.cache == cache - {key}
             && (if again then StandsAt(after.call, after.s, t.answer)
                 else after.call.stage == Wanting(Some(session.value)))
           else
             StandsAt(after.call, after.s, t.answer) && after.s.cache == cache)
  }

  lemma OneRequest(at: At, id: nat, n: Network)
    requires SharedOk(at.s) && at.call.stage.Wanting? && at.s.lock == None
    ensures OnceDone(at, TryOf(at.s, at.call.key, n), n.elapsed, AskedOnce(at, id, n))
  {
    var looked := Looked(at, id, n);
    LookupIsItsSteps(at, id, n);
    if looked.call.stage.Requesting? {
      OneAnswer(looked, id, n.answer);
    }
  }

  // ---- The whole call ----

  lemma DoKeepsShared(at: At, id: nat, action: Action)
    requires SharedOk(at.s) && CanAct(at.s, at.call, action)
    ensures SharedOk(Do(at, id, action).s)
  {
    CacheAfterAct(at.s, id, at.call, action);
  }

  lemma LookedKeepsShared(at: At, id: nat, n: Network)
    requires SharedOk(at.s) && at.call.stage.Wanting? && at.s.lock == None
    ensures SharedOk(Looked(at, id, n).s)
  {
    var entered := Waited(Do(at, id, Enter), n.elapsed);
    DoKeepsShared(at, id, Enter);
    if entered.call.stage.Establishing? {
      DoKeepsShared(entered, id, Establish(n.reachable));
    }
  }

  lemma AnsweredKeepsShared(looked: At, id: nat, answer: Answer)
    requires SharedOk(looked.s) && looked.s.lock == None
    ensures SharedOk(Answered(looked, id, answer).s)
  {
    if looked.call.stage.Requesting? {
      var asked := Do(looked, id, Respond(answer));
      DoKeepsShared(looked, id, Respond(answer));
      if asked.call.stage.Removing? && asked.s.lock == None {
        DoKeepsShared(asked, id, Remove);
      }
    }
  }

  lemma AskedKeepsShared(at: At, id: nat, n: Network)
    requires SharedOk(at.s) && at.call.stage.Wanting? && at.s.lock == None
    ensures SharedOk(AskedOnce(at, id, n).s)
  {
    LookedKeepsShared(at, id, n);
    if Looked(at, id, n).s.lock == None {
      AnsweredKeepsShared(Looked(at, id, n), id, n.answer);
    }
  }

  /** A call that stands somewhere wants nothing more. */
  lemma StandingWantsNothing(call: Call, s: Shared, answer: Answer)
    requires StandsAt(call, s, answer)
    ensures !call.stage.Wanting?
  {
  }

  /** What a call has done when it wants no connection any more. */
  predicate TryDone(at: At, first: Try, second: Try, answer: Answer, after: At) {
    && TriedProperly(at.s.cache, at.call.key, first, second, answer, after.call.asked, after.s.cache)
    && StandsAt(after.call, after.s, answer)
    && at.s.clock <= after.s.clock && SameBut(at.s, after.s, after.s.clock - at.s.clock)
    && after.call == at.call.(stage := after.call.stage, asked := after.call.asked)
  }

  predicate Fresh(at: At) {
    at.call.stage == Wanting(None) && at.call.asked == []
  }

  lemma OneTryIsEnough(at: At, first: Try, second: Try, elapsed: nat, once: At) returns (answer: Answer)
    requires Fresh(at) && OnceDone(at, first, elapsed, once) && !once.call.stage.Wanting?
    ensures TryDone(at, first, second, answer, once)
  {
    answer := if Lookup(at.s.cache, at.call.key, first.closed, first.established).0.Some?
              then first.answer else Failed(Broken);
  }

  lemma TwoTries(at: At, first: Try, second: Try, elapsed: nat, once: At, elapsed': nat, twice: At)
    returns (answer: Answer)
    requires Fresh(at) && OnceDone(at, first, elapsed, once) && once.call.stage.Wanting?
    requires OnceDone(once, second, elapsed', twice)
    ensures TryDone(at, first, second, answer, twice)
  {
    WantsTheOther(at, first, elapsed, once);
    answer := if second.established.Some? then second.answer else Failed(Broken);
  }

  /** A second connection is wanted when a cached one broke, and that is forgotten then. */
  lemma WantsTheOther(at: At, first: Try, elapsed: nat, once: At)
    requires Fresh(at) && OnceDone(at, first, elapsed, once) && once.call.stage.Wanting?
    ensures Usable(at.s.cache, at.call.key, first.closed) && IsBroken(first.answer)
    ensures once.call.asked == [at.s.cache[at.call.key]] && once.call.stage == Wanting(Some(at.s.cache[at.call.key]))
    ensures once.s.cache == at.s.cache - {at.call.key}
  {
    if StandsAt(once.call, once.s, first.answer) {
      StandingWantsNothing(once.call, once.s, first.answer);
    }
    if StandsAt(once.call, once.s, Failed(Broken)) {
      StandingWantsNothing(once.call, once.s, Failed(Broken));
    }
  }

  /** The requests of a call are those of `try_connect`, and so are its answer and the cache left. */
  lemma TryIsItsSteps(at: At, id: nat, first: Network, second: Network) returns (second': Try, answer: Answer)
    requires SharedOk(at.s) && Fresh(at) && at.s.lock == None
    ensures IsTryOf(second', second)
    ensures TryDone(at, TryOf(at.s, at.call.key, first), second', answer, Tried(at, id, first, second))
  {
    var first' := TryOf(at.s, at.call.key, first);
    var once := AskedOnce(at, id, first);
    OneRequest(at, id, first);
    if once.call.stage.Wanting? {
      AskedKeepsShared(at, id, first);
      OneRequest(once, id, second);
      second' := TryOf(once.s, once.call.key, second);
      answer := TwoTries(at, first', second', first.elapsed, once, second.elapsed, AskedOnce(once, id, second));
    } else {
      second' := TryOf(once.s, once.call.key, second);
      answer := OneTryIsEnough(at, first', second', first.elapsed, once);
    }
  }

  lemma ConclusionIsItsStep(at: At, before: Call, id: nat, pump: nat, answer: Answer)
    requires StandsAt(at.call, at.s, answer) && pump !in at.s.pumps
    requires at.call == before.(stage := at.call.stage, asked := at.call.asked)
    ensures var after, verdict := Concluded(at, id, pump), Conclude(answer, before.mode.Only?);
            && Shows(before, after.s, after.call, verdict)
            && after.call.asked == at.call.asked && after.s.cache == at.s.cache && after.s.clock == at.s.clock
            && after.s.until == (if verdict.UseTcp? then Some(at.s.clock + FALLBACK_PERIOD) else at.s.until)
            && after.s.pumps.Keys == at.s.pumps.Keys + (if verdict.Stream? then {pump} else {})
  {
  }

  /** Looking at the deadline, if the mode asks for it. */
  lemma CheckIsItsStep(at: At, id: nat)
    requires at.call.stage.Checking?
    ensures var checked, off := Do(at, id, Check), PutOff(at.s.until, at.s.clock);
            && checked.call == (if off then ByTcp(at.call) else at.call.(stage := Wanting(None)))
            && checked.s == at.s.(until := if off then at.s.until else None)
  {
  }

  /** A call that nothing interrupts, but for the time its requests take, comes to the verdict of
      `Connections.Connect`, on the same connections, and leaves the cache and the deadline it leaves.
      A tunnel it opens is the one more that is counted. */
  lemma ConnectIsItsSteps(at: At, id: nat, first: Network, second: Network, pump: nat)
    returns (second': Try, verdict: Verdict)
    requires SharedOk(at.s) && at.s.lock == None && pump !in at.s.pumps
    requires at.call.stage == (if at.call.mode.Only? then Wanting(None) else Checking)
    requires at.call.asked == [] && !at.call.dialled
    ensures IsTryOf(second', second)
    ensures var after := Connected(at, id, first, second, pump);
            && ConnectedProperly(Held(at.s.cache, at.s.until), at.call.key, at.call.mode.Only?, at.s.clock,
                                 TryOf(at.s, at.call.key, first), second', after.s.clock,
                                 verdict, after.call.asked, Held(after.s.cache, after.s.until))
            && Shows(at.call, after.s, after.call, verdict)
            && after.s.pumps.Keys == at.s.pumps.Keys + (if verdict.Stream? then {pump} else {})
  {
    var checked := if at.call.mode.Only? then at else Do(at, id, Check);
    if !at.call.mode.Only? {
      CheckIsItsStep(at, id);
    }
    if !at.call.mode.Only? && PutOff(at.s.until, at.s.clock) {
      assert Connected(at, id, first, second, pump) == checked;
      second', verdict := TryOf(at.s, at.call.key, second), UseTcp;
    } else {
      assert checked.call.stage == Wanting(None);
      second', verdict := FromTheFirstTry(at, checked, id, first, second, pump);
    }
  }

  lemma FromTheFirstTry(at: At, checked: At, id: nat, first: Network, second: Network, pump: nat)
    returns (second': Try, verdict: Verdict)
    requires SharedOk(at.s) && Fresh(checked) && at.s.lock == None && pump !in at.s.pumps
    requires checked.call == at.call.(stage := Wanting(None)) && !at.call.dialled
    requires checked.s == if at.call.mode.Only? then at.s else at.s.(until := None)
    requires at.call.mode.Only? || !PutOff(at.s.until, at.s.clock)
    ensures IsTryOf(second', second)
    ensures var after := Concluded(Tried(checked, id, first, second), id, pump);
            && ConnectedProperly(Held(at.s.cache, at.s.until), at.call.key, at.call.mode.Only?, at.s.clock,
                                 TryOf(at.s, at.call.key, first), second', after.s.clock,
                                 verdict, after.call.asked, Held(after.s.cache, after.s.until))
            && Shows(at.call, after.s, after.call, verdict)
            && after.s.pumps.Keys == at.s.pumps.Keys + (if verdict.Stream? then {pump} else {})
  {
    var tried := Tried(checked, id, first, second);
    var answer;
    second', answer := TryIsItsSteps(checked, id, first, second);
    ConclusionIsItsStep(tried, checked.call, id, pump, answer);
    verdict := Conclude(answer, at.call.mode.Only?);
    var after := Concluded(tried, id, pump);
    Together(Held(at.s.cache, at.s.until), at.call.key, at.call.mode.Only?, at.s.clock, TryOf(at.s, at.call.key, first),
             second', answer, after.s.clock, tried.call.asked, Held(after.s.cache, after.s.until));
  }

  lemma Together(before: Held, key: Key, only: bool, now: nat, first: Try, second: Try, answer: Answer, later: nat,
                 asked: seq<nat>, after: Held)
    requires only || !PutOff(before.until, now)
    requires TriedProperly(before.cache, key, first, second, answer, asked, after.cache)
    requires after.until == if Conclude(answer, only).UseTcp? then Some(later + FALLBACK_PERIOD)
                            else if only then before.until else None
    ensures ConnectedProperly(before, key, only, now, first, second, later, Conclude(answer, only), asked, after)
  {
  }
}

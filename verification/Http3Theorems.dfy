/** What holds in every run of the HTTP/3 protocol. */
module Http3Theorems {
  import opened Wrappers
  import opened Clock
  import opened Http3
  import opened Http3Protocol

  // ---- Handshakes, modes and connections of one call ----

  function Retried(broken: Option<nat>): seq<nat> {
    if broken.Some? then [broken.value] else []
  }

  /** The connections asked in a round: the second only after the first, a cached one, broke. */
  predicate StageOk(stage: Stage, mode: Mode, asked: seq<nat>, dialled: bool) {
    match stage
    case Authorizing => asked == [] && !dialled
    case Choosing => asked == [] && !dialled
    case Checking => asked == [] && !dialled && mode.Preferred?
    case Wanting(broken) => asked == Retried(broken) && !dialled && !mode.Off?
    case Establishing(broken) => asked == Retried(broken) && !dialled && !mode.Off?
    case Requesting(broken, on, _) => asked == Retried(broken) + [on] && broken != Some(on) && !dialled && !mode.Off?
    case Counted(_) => !dialled && !mode.Off?
    case Removing(again, on) => !dialled && !mode.Off? && (!again ==> asked == [on])
    case Deferring(_) => !dialled && mode.Preferred?
    case Dialling => dialled
    case Reporting => true
    case Ended(_) => true
  }

  predicate CallOk(call: Call, usable: bool) {
    && StageOk(call.stage, call.mode, call.asked, call.dialled)
    && (call.mode != Off ==> usable)
    && (call.mode.Only? ==> !call.dialled)
    && call.before <= (if call.renewed then 3 else 0)
    && |call.asked| <= 2
    && (|call.asked| == 2 ==> call.asked[0] != call.asked[1])
    && (call.stage.Reporting? ==> !call.renewed)
  }

  /** The connections a call has in mind exist, and one it wants replaced is not cached. */
  predicate Sound(call: Call, cache: map<Key, nat>, n: nat) {
    match call.stage
    case Wanting(Some(on)) => on < n && (call.key in cache ==> cache[call.key] != on)
    case Establishing(Some(on)) => on < n && (call.key in cache ==> cache[call.key] != on)
    case Requesting(_, on, _) => on < n
    case Counted(on) => on < n
    case Removing(_, on) => on < n
    case _ => true
  }

  predicate CacheOk(cache: map<Key, nat>, n: nat) {
    forall key <- cache :: cache[key] < n
  }

  /** The cache loses entries, or gains the newest connection. */
  predicate CacheStep(cache: map<Key, nat>, n: nat, cache': map<Key, nat>, n': nat) {
    && n <= n' <= n + 1
    && forall key <- cache' :: (key in cache && cache'[key] == cache[key]) || (cache'[key] == n && n' == n + 1)
  }

  lemma SoundKept(call: Call, cache: map<Key, nat>, n: nat, cache': map<Key, nat>, n': nat)
    requires Sound(call, cache, n) && CacheStep(cache, n, cache', n')
    ensures Sound(call, cache', n')
  {
  }

  lemma CacheAfterAct(s: Shared, id: nat, call: Call, action: Action)
    requires CanAct(s, call, action)
    ensures var s' := NextShared(s, id, call, action);
            CacheStep(s.cache, |s.connections|, s'.cache, |s'.connections|)
  {
  }

  lemma CacheAfterEvent(s: Shared, event: Event)
    requires CanHappen(s, event)
    ensures CacheStep(s.cache, |s.connections|, AfterEvent(s, event).cache, |AfterEvent(s, event).connections|)
  {
  }

  predicate SharedOk(s: Shared) {
    (s.mode != Off ==> s.usable) && CacheOk(s.cache, |s.connections|)
  }

  ghost predicate CallsInv(w: World) {
    && SharedOk(w.shared)
    && forall id <- w.calls ::
         CallOk(w.calls[id], w.shared.usable) && Sound(w.calls[id], w.shared.cache, |w.shared.connections|)
  }

  lemma AfterFailureOk(call: Call, failure: Failure, canRenew: bool, clock: nat, usable: bool)
    requires CallOk(call, usable) && !call.dialled && !call.mode.Off?
    ensures CallOk(call.(stage := AfterFailure(call, failure, canRenew, clock)), usable)
  {
  }

  lemma RequestOk(call: Call, broken: Option<nat>, on: nat, cached: bool, usable: bool)
    requires CallOk(call, usable) && call.asked == Retried(broken) && broken != Some(on) && !call.dialled
          && !call.mode.Off?
    ensures CallOk(Request(call, broken, on, cached), usable)
  {
  }

  /** Looking a connection up, or establishing one. */
  lemma NextCallOkWhenLooking(s: Shared, call: Call, action: Action)
    requires SharedOk(s) && CanAct(s, call, action) && (action.Enter? || action.Establish?)
    requires CallOk(call, s.usable) && Sound(call, s.cache, |s.connections|)
    ensures CallOk(NextCall(s, call, action), s.usable)
  {
    match action
    case Enter => if Cached(s, call.key) { RequestOk(call, call.stage.broken, s.cache[call.key], true, s.usable); }
    case Establish(true) => RequestOk(call, call.stage.broken, |s.connections|, false, s.usable);
    case Establish(false) => AfterFailureOk(call, Broken, s.canRenew, s.clock, s.usable);
  }

  lemma NextCallOkOtherwise(s: Shared, call: Call, action: Action)
    requires SharedOk(s) && CanAct(s, call, action) && !action.Enter? && !action.Establish?
    requires CallOk(call, s.usable)
    ensures CallOk(NextCall(s, call, action), s.usable)
  {
    match action
    case Remove => AfterFailureOk(call, Broken, s.canRenew, s.clock, s.usable);
    case Respond(Failed(failure)) => AfterFailureOk(call, failure, s.canRenew, s.clock, s.usable);
    case _ =>
  }

  lemma NextCallOk(s: Shared, call: Call, action: Action)
    requires SharedOk(s) && CanAct(s, call, action)
    requires CallOk(call, s.usable) && Sound(call, s.cache, |s.connections|)
    ensures CallOk(NextCall(s, call, action), s.usable)
  {
    if action.Enter? || action.Establish? {
      NextCallOkWhenLooking(s, call, action);
    } else {
      NextCallOkOtherwise(s, call, action);
    }
  }

  lemma NextCallSoundWhenLooking(s: Shared, id: nat, call: Call, action: Action)
    requires SharedOk(s) && CanAct(s, call, action) && Sound(call, s.cache, |s.connections|)
    requires action.Enter? || action.Establish? || action.Remove?
    ensures var s' := NextShared(s, id, call, action);
            Sound(NextCall(s, call, action), s'.cache, |s'.connections|)
  {
  }

  lemma NextCallSoundOtherwise(s: Shared, id: nat, call: Call, action: Action)
    requires CanAct(s, call, action) && Sound(call, s.cache, |s.connections|)
    requires !action.Enter? && !action.Establish? && !action.Remove?
    ensures var s' := NextShared(s, id, call, action);
            Sound(NextCall(s, call, action), s'.cache, |s'.connections|)
  {
  }

  lemma NextCallSound(s: Shared, id: nat, call: Call, action: Action)
    requires SharedOk(s) && CanAct(s, call, action) && Sound(call, s.cache, |s.connections|)
    ensures var s' := NextShared(s, id, call, action);
            Sound(NextCall(s, call, action), s'.cache, |s'.connections|)
  {
    if action.Enter? || action.Establish? || action.Remove? {
      NextCallSoundWhenLooking(s, id, call, action);
    } else {
      NextCallSoundOtherwise(s, id, call, action);
    }
  }

  lemma CallsKeptByAct(w: World, id: nat, action: Action)
    requires CallsInv(w) && Enabled(w, Act(id, action))
    ensures CallsInv(Apply(w, Act(id, action)))
  {
    var s, s' := w.shared, NextShared(w.shared, id, w.calls[id], action);
    CacheAfterAct(s, id, w.calls[id], action);
    NextCallOk(s, w.calls[id], action);
    NextCallSound(s, id, w.calls[id], action);
    forall other <- w.calls
      ensures Sound(w.calls[other], s.cache, |s.connections|)
      ensures other != id ==> Sound(w.calls[other], s'.cache, |s'.connections|)
    {
      SoundKept(w.calls[other], s.cache, |s.connections|, s'.cache, |s'.connections|);
    }
  }

  lemma CallsKept(w: World, step: Step)
    requires CallsInv(w) && Enabled(w, step)
    ensures CallsInv(Apply(w, step))
  {
    match step
    case Begin(_, _) =>
    case Act(id, action) => CallsKeptByAct(w, id, action);
    case Happen(event) =>
      var s, s' := w.shared, AfterEvent(w.shared, event);
      CacheAfterEvent(s, event);
      forall id <- w.calls ensures Sound(w.calls[id], s'.cache, |s'.connections|) {
        SoundKept(w.calls[id], s.cache, |s.connections|, s'.cache, |s'.connections|);
      }
  }

  // ---- The lock ----

  predicate HoldsLock(w: World, id: nat) {
    id in w.calls && w.calls[id].stage.Establishing?
  }

  ghost predicate LockInv(w: World) {
    forall id: nat :: w.shared.lock == Some(id) <==> HoldsLock(w, id)
  }

  lemma LockAfterAct(s: Shared, id: nat, call: Call, action: Action)
    requires CanAct(s, call, action) && (s.lock == Some(id) <==> call.stage.Establishing?)
    ensures NextShared(s, id, call, action).lock == Some(id) <==> NextCall(s, call, action).stage.Establishing?
    ensures NextShared(s, id, call, action).lock == s.lock || NextShared(s, id, call, action).lock == None
         || s.lock == None
    ensures s.lock.Some? && s.lock != Some(id) ==> NextShared(s, id, call, action).lock == s.lock
    ensures s.lock == None ==> NextShared(s, id, call, action).lock in {None, Some(id)}
  {
  }

  lemma LockKept(w: World, step: Step)
    requires LockInv(w) && Enabled(w, step)
    ensures LockInv(Apply(w, step))
  {
    var w' := Apply(w, step);
    if step.Act? {
      LockAfterAct(w.shared, step.id, w.calls[step.id], step.action);
    }
    forall id: nat ensures w'.shared.lock == Some(id) <==> HoldsLock(w', id) {
      assert w.shared.lock == Some(id) <==> HoldsLock(w, id);
    }
  }

  // ---- Tunnel counters ----

  /** The live guards of a connection. */
  function Guards(pumps: map<nat, nat>, on: nat): set<nat> {
    set pump | pump in pumps && pumps[pump] == on
  }

  /** The calls that have raised the counter of a connection and not made the guard yet. */
  function Unguarded(calls: map<nat, Call>, on: nat): set<nat> {
    set id | id in calls && calls[id].stage == Counted(on)
  }

  predicate CounterIs(tunnels: int, pumps: map<nat, nat>, calls: map<nat, Call>, on: nat) {
    tunnels == |Guards(pumps, on)| + |Unguarded(calls, on)|
  }

  predicate CountersOk(connections: seq<Connection>, pumps: map<nat, nat>, calls: map<nat, Call>) {
    && (forall pump <- pumps :: pumps[pump] < |connections|)
    && forall on: nat | on < |connections| :: CounterIs(connections[on].tunnels, pumps, calls, on)
  }

  predicate CounterInv(w: World) {
    CountersOk(w.shared.connections, w.shared.pumps, w.calls)
  }

  lemma UnguardedAfter(calls: map<nat, Call>, id: nat, call: Call, on: nat)
    ensures Unguarded(calls[id := call], on)
         == Unguarded(calls, on) - {id} + if call.stage == Counted(on) then {id} else {}
  {
  }

  lemma GuardsAfter(pumps: map<nat, nat>, pump: nat, at: nat, on: nat)
    requires pump !in pumps
    ensures Guards(pumps[pump := at], on) == Guards(pumps, on) + if at == on then {pump} else {}
  {
  }

  lemma GuardsWithout(pumps: map<nat, nat>, pump: nat, on: nat)
    requires pump in pumps
    ensures Guards(pumps - {pump}, on) == Guards(pumps, on) - if pumps[pump] == on then {pump} else {}
  {
  }

  /** A call that was not counted and is not now changes nothing. */
  lemma UncountedStays(calls: map<nat, Call>, id: nat, call: Call, on: nat)
    requires !call.stage.Counted? && (id in calls ==> !calls[id].stage.Counted?)
    ensures Unguarded(calls[id := call], on) == Unguarded(calls, on)
  {
  }

  lemma OpenedKeeps(connections: seq<Connection>, pumps: map<nat, nat>, calls: map<nat, Call>, id: nat, call: Call,
                    on: nat)
    requires CountersOk(connections, pumps, calls) && on < |connections|
    requires id in calls && !calls[id].stage.Counted? && call.stage == Counted(on)
    ensures CountersOk(Count(connections, on, 1), pumps, calls[id := call])
  {
    forall c: nat | c < |connections|
      ensures CounterIs(Count(connections, on, 1)[c].tunnels, pumps, calls[id := call], c)
    {
      assert CounterIs(connections[c].tunnels, pumps, calls, c);
      UnguardedAfter(calls, id, call, c);
      assert Unguarded(calls, c) - {id} == Unguarded(calls, c);
    }
  }

  lemma GuardKeeps(connections: seq<Connection>, pumps: map<nat, nat>, calls: map<nat, Call>, id: nat, call: Call,
                   on: nat, pump: nat)
    requires CountersOk(connections, pumps, calls) && on < |connections| && pump !in pumps
    requires id in calls && calls[id].stage == Counted(on) && !call.stage.Counted?
    ensures CountersOk(connections, pumps[pump := on], calls[id := call])
  {
    forall c: nat | c < |connections|
      ensures CounterIs(connections[c].tunnels, pumps[pump := on], calls[id := call], c)
    {
      assert CounterIs(connections[c].tunnels, pumps, calls, c);
      UnguardedAfter(calls, id, call, c);
      GuardsAfter(pumps, pump, on, c);
      assert id in Unguarded(calls, c) <==> on == c;
    }
  }

  lemma EndPumpKeeps(connections: seq<Connection>, pumps: map<nat, nat>, calls: map<nat, Call>, pump: nat)
    requires CountersOk(connections, pumps, calls) && pump in pumps
    ensures CountersOk(Count(connections, pumps[pump], -1), pumps - {pump}, calls)
  {
    forall c: nat | c < |connections|
      ensures CounterIs(Count(connections, pumps[pump], -1)[c].tunnels, pumps - {pump}, calls, c)
    {
      assert CounterIs(connections[c].tunnels, pumps, calls, c);
      GuardsWithout(pumps, pump, c);
      assert pump in Guards(pumps, c) <==> pumps[pump] == c;
    }
  }

  /** A call that was not counted and is not now changes nothing; a new connection has no tunnels. */
  lemma UncountedKeeps(connections: seq<Connection>, pumps: map<nat, nat>, calls: map<nat, Call>, id: nat, call: Call)
    requires CountersOk(connections, pumps, calls)
    requires !call.stage.Counted? && (id in calls ==> !calls[id].stage.Counted?)
    ensures CountersOk(connections, pumps, calls[id := call])
  {
    forall on: nat | on < |connections| ensures CounterIs(connections[on].tunnels, pumps, calls[id := call], on) {
      assert CounterIs(connections[on].tunnels, pumps, calls, on);
      UncountedStays(calls, id, call, on);
    }
  }

  lemma NewConnectionKeeps(connections: seq<Connection>, pumps: map<nat, nat>, calls: map<nat, Call>)
    requires CountersOk(connections, pumps, calls)
    requires forall id <- calls | calls[id].stage.Counted? :: calls[id].stage.on < |connections|
    ensures CountersOk(connections + [Connection(0, false)], pumps, calls)
  {
    assert Guards(pumps, |connections|) == {} && Unguarded(calls, |connections|) == {};
    assert CounterIs(0, pumps, calls, |connections|);
  }

  lemma CountedIsSound(w: World)
    requires CallsInv(w)
    ensures forall id <- w.calls | w.calls[id].stage.Counted? :: w.calls[id].stage.on < |w.shared.connections|
  {
    forall id <- w.calls | w.calls[id].stage.Counted? ensures w.calls[id].stage.on < |w.shared.connections| {
      assert Sound(w.calls[id], w.shared.cache, |w.shared.connections|);
    }
  }

  lemma UncountedAct(s: Shared, id: nat, call: Call, action: Action)
    requires CanAct(s, call, action) && !action.Guard? && action != Respond(Opened)
    ensures !call.stage.Counted? && !NextCall(s, call, action).stage.Counted?
    ensures NextShared(s, id, call, action).pumps == s.pumps
    ensures NextShared(s, id, call, action).connections
         == if action == Establish(true) then s.connections + [Connection(0, false)] else s.connections
  {
  }

  lemma CounterKeptByAct(w: World, id: nat, action: Action)
    requires CallsInv(w) && CounterInv(w) && Enabled(w, Act(id, action))
    ensures CounterInv(Apply(w, Act(id, action)))
  {
    var s, call := w.shared, w.calls[id];
    var next := NextCall(s, call, action);
    CountedIsSound(w);
    if action == Respond(Opened) {
      assert Sound(call, s.cache, |s.connections|);
      OpenedKeeps(s.connections, s.pumps, w.calls, id, next, call.stage.on);
    } else if action.Guard? {
      GuardKeeps(s.connections, s.pumps, w.calls, id, next, call.stage.on, action.pump);
    } else {
      UncountedAct(s, id, call, action);
      UncountedKeeps(s.connections, s.pumps, w.calls, id, next);
      if action == Establish(true) {
        NewConnectionKeeps(s.connections, s.pumps, w.calls[id := next]);
      }
    }
  }

  lemma CounterKept(w: World, step: Step)
    requires CallsInv(w) && CounterInv(w) && Enabled(w, step)
    ensures CounterInv(Apply(w, step))
  {
    var s := w.shared;
    match step
    case Begin(id, _) => UncountedKeeps(s.connections, s.pumps, w.calls, id, Apply(w, step).calls[id]);
    case Act(id, action) => CounterKeptByAct(w, id, action);
    case Happen(EndPump(pump)) => EndPumpKeeps(s.connections, s.pumps, w.calls, pump);
    case Happen(CloseConnection(on)) => CloseKeeps(s.connections, s.pumps, w.calls, on);
    case Happen(_) =>
  }

  lemma CloseKeeps(connections: seq<Connection>, pumps: map<nat, nat>, calls: map<nat, Call>, on: nat)
    requires CountersOk(connections, pumps, calls) && on < |connections|
    ensures CountersOk(connections[on := connections[on].(closed := true)], pumps, calls)
  {
    var connections' := connections[on := connections[on].(closed := true)];
    forall c: nat | c < |connections'| ensures CounterIs(connections'[c].tunnels, pumps, calls, c) {
      assert CounterIs(connections[c].tunnels, pumps, calls, c);
    }
  }

  // ---- The fallback deadline ----

  predicate Defers(call: Call) {
    call.stage.Deferring?
  }

  /** No deadline, set or about to be, is further away than the period. */
  ghost predicate DeadlineInv(w: World) {
    && (w.shared.until.Some? ==> w.shared.until.value <= w.shared.clock + FALLBACK_PERIOD)
    && forall id <- w.calls | Defers(w.calls[id]) :: w.calls[id].stage.deadline <= w.shared.clock + FALLBACK_PERIOD
  }

  /** Only a call that failed, other than by a 401 and not in `Only` mode, comes to set a deadline,
      one period after it read the clock; and only such a call sets it. */
  lemma DeadlineAfterAct(s: Shared, id: nat, call: Call, action: Action)
    requires CanAct(s, call, action)
    ensures Defers(NextCall(s, call, action)) ==>
              && NextCall(s, call, action).stage.deadline == s.clock + FALLBACK_PERIOD
              && !call.mode.Only?
              && Failing(action)
    ensures NextShared(s, id, call, action).clock == s.clock
    ensures NextShared(s, id, call, action).until
         == if action.Defer? then Some(call.stage.deadline) else if action.Check? then Remembered(s.until, s.clock)
            else s.until
  {
  }

  lemma DeadlineKept(w: World, step: Step)
    requires DeadlineInv(w) && Enabled(w, step)
    ensures DeadlineInv(Apply(w, step))
  {
    if step.Act? {
      assert Defers(w.calls[step.id]) || !Defers(w.calls[step.id]);
      DeadlineAfterAct(w.shared, step.id, w.calls[step.id], step.action);
    }
  }

  // ---- All together ----

  ghost predicate Inv(w: World) {
    CallsInv(w) && LockInv(w) && CounterInv(w) && DeadlineInv(w)
  }

  lemma InvKept(w: World, step: Step)
    requires Inv(w) && Enabled(w, step)
    ensures Inv(Apply(w, step))
  {
    CallsKept(w, step);
    LockKept(w, step);
    CounterKept(w, step);
    DeadlineKept(w, step);
  }

  lemma {:induction false} InvAlways(worlds: seq<World>, steps: seq<Step>, i: nat)
    requires Run(worlds, steps) && i < |worlds|
    ensures Inv(worlds[i])
  {
    if i > 0 {
      InvAlways(worlds, steps, i - 1);
      assert Stepped(worlds, steps, i - 1);
      InvKept(worlds[i - 1], steps[i - 1]);
    }
  }

  // ---- The theorems ----

  function Handshakes(call: Call): nat {
    call.before + |call.asked| + if call.dialled then 1 else 0
  }

  /** A `connect_gateway` makes at most six handshakes: in each of two rounds at most two over HTTP/3,
      on different connections, and one over TCP, which `Only` mode never gets to. */
  lemma BoundedHandshakes(worlds: seq<World>, steps: seq<Step>, i: nat, id: nat)
    requires Run(worlds, steps) && i < |worlds| && id in worlds[i].calls
    ensures var call := worlds[i].calls[id];
            && Handshakes(call) <= (if call.renewed then 6 else 3)
            && |call.asked| <= 2
            && (|call.asked| == 2 ==> call.asked[0] != call.asked[1])
            && (call.mode.Only? ==> !call.dialled)
  {
    InvAlways(worlds, steps, i);
    assert CallOk(worlds[i].calls[id], worlds[i].shared.usable);
  }

  /** At most one task establishes a connection at a time. */
  lemma OneEstablishes(worlds: seq<World>, steps: seq<Step>, i: nat, a: nat, b: nat)
    requires Run(worlds, steps) && i < |worlds| && HoldsLock(worlds[i], a) && HoldsLock(worlds[i], b)
    ensures a == b
  {
    InvAlways(worlds, steps, i);
    assert worlds[i].shared.lock == Some(a) && worlds[i].shared.lock == Some(b);
  }

  /** Every counter is the number of live guards, but for the calls that are about to make one; so it
      is never negative, and zero exactly when the tunnels of the connection have ended. */
  lemma CountersAreConserved(worlds: seq<World>, steps: seq<Step>, i: nat, on: nat)
    requires Run(worlds, steps) && i < |worlds| && on < |worlds[i].shared.connections|
    ensures var w := worlds[i];
            var tunnels := w.shared.connections[on].tunnels;
            && tunnels == |Guards(w.shared.pumps, on)| + |Unguarded(w.calls, on)|
            && (tunnels == 0 <==>
                  && (forall pump <- w.shared.pumps :: w.shared.pumps[pump] != on)
                  && (forall id <- w.calls :: w.calls[id].stage != Counted(on)))
  {
    InvAlways(worlds, steps, i);
    var w := worlds[i];
    assert CounterIs(w.shared.connections[on].tunnels, w.shared.pumps, w.calls, on);
    forall pump | pump in w.shared.pumps ensures w.shared.pumps[pump] == on <==> pump in Guards(w.shared.pumps, on) {
    }
    forall id | id in w.calls ensures w.calls[id].stage == Counted(on) <==> id in Unguarded(w.calls, on) {
    }
  }

  lemma DeadlineIsNear(worlds: seq<World>, steps: seq<Step>, i: nat)
    requires Run(worlds, steps) && i < |worlds| && worlds[i].shared.until.Some?
    ensures worlds[i].shared.until.value <= worlds[i].shared.clock + FALLBACK_PERIOD
  {
    InvAlways(worlds, steps, i);
  }

  /** What makes `connect` fall back: no connection could be established, or a request broke twice, or
      the gateway answered a request with anything but 200 and 401. */
  predicate Failing(action: Action) {
    || action == Establish(false) || action == Remove
    || (action.Respond? && action.answer.Failed? && action.answer.failure != Http(UNAUTHORIZED))
  }

  lemma StillDefers(w: World, step: Step, id: nat)
    requires CallsInv(w) && Enabled(w, step) && id in Apply(w, step).calls && Defers(Apply(w, step).calls[id])
    ensures id in w.calls
    ensures if Defers(w.calls[id]) then Apply(w, step).calls[id] == w.calls[id]
            else
              && step.Act? && step.id == id && Failing(step.action) && w.calls[id].mode.Preferred?
              && Apply(w, step).calls[id].stage.deadline == w.shared.clock + FALLBACK_PERIOD
  {
    if step.Act? && step.id == id {
      DeadlineAfterAct(w.shared, id, w.calls[id], step.action);
      assert CallOk(w.calls[id], w.shared.usable);
    }
  }

  /** A call that is about to set a deadline has failed, and not by a 401 or in `Only` mode, 60 s
      before that deadline. */
  lemma {:induction false} DeferredSince(worlds: seq<World>, steps: seq<Step>, i: nat, id: nat) returns (k: nat)
    requires Run(worlds, steps) && i < |worlds| && id in worlds[i].calls && Defers(worlds[i].calls[id])
    ensures k < i && steps[k].Act? && steps[k].id == id && Failing(steps[k].action)
    ensures id in worlds[k].calls && worlds[k].calls[id].mode.Preferred?
    ensures worlds[i].calls[id].stage.deadline == worlds[k].shared.clock + FALLBACK_PERIOD
  {
    assert i > 0;
    InvAlways(worlds, steps, i - 1);
    assert Stepped(worlds, steps, i - 1);
    StillDefers(worlds[i - 1], steps[i - 1], id);
    if Defers(worlds[i - 1].calls[id]) {
      k := DeferredSince(worlds, steps, i - 1, id);
    } else {
      k := i - 1;
    }
  }

  /** In every run a deadline is set only by a call in `Preferred` mode that failed, other than by a
      401, 60 s before that deadline, and none is further away than that. */
  lemma FallbackStarts(worlds: seq<World>, steps: seq<Step>, i: nat) returns (k: nat)
    requires Run(worlds, steps) && i < |steps|
    requires worlds[i + 1].shared.until.Some? && worlds[i + 1].shared.until != worlds[i].shared.until
    ensures worlds[i + 1].shared.until.value <= worlds[i + 1].shared.clock + FALLBACK_PERIOD
    ensures steps[i].Act? && k < i && steps[k].Act? && steps[k].id == steps[i].id && Failing(steps[k].action)
    ensures steps[k].id in worlds[k].calls && worlds[k].calls[steps[k].id].mode.Preferred?
    ensures worlds[i + 1].shared.until.value == worlds[k].shared.clock + FALLBACK_PERIOD
  {
    InvAlways(worlds, steps, i);
    InvAlways(worlds, steps, i + 1);
    assert Stepped(worlds, steps, i);
    DeadlineSetter(worlds[i], steps[i]);
    k := DeferredSince(worlds, steps, i, steps[i].id);
  }

  lemma DeadlineSetter(w: World, step: Step)
    requires Enabled(w, step)
    requires Apply(w, step).shared.until.Some? && Apply(w, step).shared.until != w.shared.until
    ensures step.Act? && step.id in w.calls
    ensures w.calls[step.id].stage == Deferring(Apply(w, step).shared.until.value)
  {
    if step.Act? {
      DeadlineAfterAct(w.shared, step.id, w.calls[step.id], step.action);
    }
  }

  /** HTTP/3 is put off at least until `m`, whatever calls that have already failed write next. */
  ghost predicate PutOffUntil(w: World, m: nat) {
    && (w.shared.clock < m ==> w.shared.until.Some? && w.shared.until.value >= m)
    && (forall id <- w.calls | Defers(w.calls[id]) :: w.calls[id].stage.deadline >= m)
    && m <= w.shared.clock + FALLBACK_PERIOD
  }

  lemma PutOffKept(w: World, step: Step, m: nat)
    requires PutOffUntil(w, m) && Enabled(w, step) && step != Happen(ClearDeadline)
    ensures PutOffUntil(Apply(w, step), m)
  {
    if step.Act? {
      assert Defers(w.calls[step.id]) || !Defers(w.calls[step.id]);
      DeadlineAfterAct(w.shared, step.id, w.calls[step.id], step.action);
    }
  }

  lemma CheckedIsPutOff(w: World, step: Step, m: nat)
    requires PutOffUntil(w, m) && w.shared.clock < m && Enabled(w, step) && step.Act? && step.action.Check?
    ensures Apply(w, step).calls[step.id].stage.Dialling?
  {
  }

  /** During the period no call in `Preferred` mode asks for QUIC, unless a reset ends it. Threads that
      read the clock before the period's deadline was set may still write an earlier one, so the
      period lasts until the earliest deadline there is. */
  lemma {:induction false} NoQuicDuringFallback(worlds: seq<World>, steps: seq<Step>, i: nat, j: nat, m: nat)
    requires Run(worlds, steps) && i <= j < |steps|
    requires worlds[i].shared.until.Some? && m <= worlds[i].shared.until.value
    requires forall id <- worlds[i].calls | Defers(worlds[i].calls[id]) :: m <= worlds[i].calls[id].stage.deadline
    requires forall k | i <= k < j :: steps[k] != Happen(ClearDeadline)
    ensures PutOffUntil(worlds[j], m)
    ensures steps[j].Act? && steps[j].action.Check? && worlds[j].shared.clock < m ==>
              steps[j].id in worlds[j + 1].calls && worlds[j + 1].calls[steps[j].id].stage.Dialling?
    decreases j
  {
    if i == j {
      InvAlways(worlds, steps, i);
    } else {
      NoQuicDuringFallback(worlds, steps, i, j - 1, m);
      assert Stepped(worlds, steps, j - 1);
      PutOffKept(worlds[j - 1], steps[j - 1], m);
    }
    assert Stepped(worlds, steps, j);
    if steps[j].Act? && steps[j].action.Check? && worlds[j].shared.clock < m {
      CheckedIsPutOff(worlds[j], steps[j], m);
    }
  }

  // ---- Answers ----

  /** What ends a call with a tunnel, what ends it without, and what makes it renew its token: only the
      first 401, over either transport. */
  lemma AnswersDecide(s: Shared, call: Call, action: Action)
    requires CanAct(s, call, action)
    ensures NextCall(s, call, action).stage == Ended(true) <==> action == Dial(Opened) || action.Guard?
    ensures NextCall(s, call, action).stage == Reporting <==>
              && !call.renewed && s.canRenew
              && (action == Respond(Failed(Http(401))) || action == Dial(Failed(Http(401))))
    ensures action == Dial(Failed(Broken)) || action == Authorize(false) || action == Abort ==>
              NextCall(s, call, action).stage == Ended(false)
  {
  }

  /** Handshakes are counted one by one: an action that sends a request or dials adds one, and no other
      changes their number, not even starting over. */
  lemma HandshakesAreCounted(s: Shared, call: Call, action: Action)
    requires CanAct(s, call, action) && (action.Choose? || action.Check? || action.Defer? ==> !call.dialled)
    ensures var next := NextCall(s, call, action);
            Handshakes(next) == Handshakes(call) + if next.stage.Requesting? || next.stage.Dialling? then 1 else 0
  {
  }

  /** A call that has renewed its token, or is about to, was told 401 before. */
  lemma {:induction false} RenewsOnlyAfter401(worlds: seq<World>, steps: seq<Step>, i: nat, id: nat) returns (k: nat)
    requires Run(worlds, steps) && i < |worlds| && id in worlds[i].calls
    requires worlds[i].calls[id].renewed || worlds[i].calls[id].stage.Reporting?
    ensures k < i && id in worlds[k].calls && worlds[k].shared.canRenew
    ensures steps[k] == Act(id, Respond(Failed(Http(401)))) || steps[k] == Act(id, Dial(Failed(Http(401))))
  {
    assert i > 0;
    assert Stepped(worlds, steps, i - 1);
    var before := worlds[i - 1];
    RenewingStays(before, steps[i - 1], id);
    if before.calls[id].renewed || before.calls[id].stage.Reporting? {
      k := RenewsOnlyAfter401(worlds, steps, i - 1, id);
    } else {
      k := i - 1;
    }
  }

  lemma RenewingStays(w: World, step: Step, id: nat)
    requires Enabled(w, step) && id in Apply(w, step).calls
    requires Apply(w, step).calls[id].renewed || Apply(w, step).calls[id].stage.Reporting?
    ensures id in w.calls
    ensures || w.calls[id].renewed || w.calls[id].stage.Reporting?
            || (w.shared.canRenew
                && (step == Act(id, Respond(Failed(Http(401)))) || step == Act(id, Dial(Failed(Http(401))))))
  {
    if step.Act? && step.id == id {
      AnswersDecide(w.shared, w.calls[id], step.action);
      OnlyReportRenews(w.shared, w.calls[id], step.action);
    }
  }

  lemma OnlyReportRenews(s: Shared, call: Call, action: Action)
    requires CanAct(s, call, action)
    ensures NextCall(s, call, action).renewed <==> call.renewed || (call.stage.Reporting? && action.Report?)
  {
  }

  // ---- Progress and resets ----

  /** Nothing waits for ever on another call: with the lock free, whatever waits for it can go on, and
      with the lock held, its holder can. */
  lemma NothingIsStuck(worlds: seq<World>, steps: seq<Step>, i: nat)
    requires Run(worlds, steps) && i < |worlds|
    ensures var w := worlds[i];
            match w.shared.lock
            case Some(id) => Enabled(w, Act(id, Establish(false))) && Enabled(w, Act(id, Establish(true)))
            case None =>
              && Enabled(w, Happen(ClearCache))
              && forall id <- w.calls ::
                   && (w.calls[id].stage.Wanting? ==> Enabled(w, Act(id, Enter)))
                   && (w.calls[id].stage.Removing? ==> Enabled(w, Act(id, Remove)))
    ensures var w := worlds[i];
            forall id <- w.calls, answer ::
              && (w.calls[id].stage.Requesting? ==> Enabled(w, Act(id, Respond(answer))))
              && (w.calls[id].stage.Dialling? ==> Enabled(w, Act(id, Dial(answer))))
  {
    InvAlways(worlds, steps, i);
    if worlds[i].shared.lock.Some? {
      assert HoldsLock(worlds[i], worlds[i].shared.lock.value);
    }
  }

  /** The two steps of a reset that nothing interrupts: the cache and the deadline are gone, and nothing
      else has changed. */
  lemma ResetIsItsSteps(s: Shared)
    requires s.lock == None
    ensures CanHappen(s, ClearCache) && CanHappen(AfterEvent(s, ClearCache), ClearDeadline)
    ensures AfterEvent(AfterEvent(s, ClearCache), ClearDeadline) == s.(cache := map[], until := None)
  {
  }

  /** A connection that has closed is not used again: a call that finds it in the cache wants another. */
  lemma ClosedIsNotUsed(s: Shared, on: nat, call: Call)
    requires on < |s.connections| && call.key in s.cache && s.cache[call.key] == on
    requires call.stage.Wanting? && s.lock == None
    ensures NextCall(AfterEvent(s, CloseConnection(on)), call, Enter).stage.Establishing?
  {
  }

  // ---- How long the period lasts ----

  /** A run from `w` without a reset. */
  ghost predicate Continuation(w: World, worlds: seq<World>, steps: seq<Step>) {
    && |worlds| == |steps| + 1 && worlds[0] == w
    && (forall i: nat {:trigger Stepped(worlds, steps, i)} | i < |steps| :: Stepped(worlds, steps, i))
    && forall step <- steps :: step != Happen(ClearDeadline)
  }

  /** A look at the deadline before `u` sends its call to TCP. */
  predicate GoesToTcp(worlds: seq<World>, steps: seq<Step>, i: nat, u: nat)
    requires i < |steps| && |worlds| == |steps| + 1
  {
    steps[i].Act? && steps[i].action.Check? && worlds[i].shared.clock < u ==>
      steps[i].id in worlds[i + 1].calls && worlds[i + 1].calls[steps[i].id].stage.Dialling?
  }

  /** However things go on, nothing but a reset ends the period before `u`. */
  ghost predicate LastsUntil(w: World, u: nat) {
    forall worlds: seq<World>, steps: seq<Step> | Continuation(w, worlds, steps) ::
      forall i: nat | i < |steps| :: GoesToTcp(worlds, steps, i, u)
  }

  lemma {:induction false} PutOffThroughout(w: World, worlds: seq<World>, steps: seq<Step>, i: nat, u: nat)
    requires Continuation(w, worlds, steps) && PutOffUntil(w, u) && i < |worlds|
    ensures PutOffUntil(worlds[i], u)
  {
    if i > 0 {
      PutOffThroughout(w, worlds, steps, i - 1, u);
      assert Stepped(worlds, steps, i - 1);
      assert steps[i - 1] in steps;
      PutOffKept(worlds[i - 1], steps[i - 1], u);
    }
  }

  /** No call that failed before is about to write an earlier deadline. */
  predicate NoneEarlier(w: World, u: nat) {
    forall id <- w.calls | Defers(w.calls[id]) :: w.calls[id].stage.deadline >= u
  }

  lemma FreshId(calls: map<nat, Call>) returns (id: nat)
    ensures id !in calls
  {
    id := AboveAll(calls.Keys);
  }

  lemma AboveAll(ids: set<nat>) returns (bound: nat)
    ensures forall id <- ids :: id < bound
    decreases |ids|
  {
    if ids == {} {
      bound := 0;
    } else {
      var some :| some in ids;
      var rest := AboveAll(ids - {some});
      bound := if rest > some then rest else some + 1;
      forall id <- ids ensures id < bound {
        assert id == some || id in ids - {some};
      }
    }
  }

  lemma Going(w: World, worlds: seq<World>, steps: seq<Step>, step: Step)
    returns (worlds': seq<World>, steps': seq<Step>)
    requires Continuation(w, worlds, steps) && Enabled(worlds[|steps|], step) && step != Happen(ClearDeadline)
    ensures Continuation(w, worlds', steps') && worlds'[|steps'|] == Apply(worlds[|steps|], step)
    ensures |steps'| == |steps| + 1 && steps'[|steps|] == step && worlds'[|steps|] == worlds[|steps|]
  {
    worlds', steps' := worlds + [Apply(worlds[|steps|], step)], steps + [step];
    forall i: nat | i < |steps'| ensures Stepped(worlds', steps', i) {
      assert i < |steps| ==> Stepped(worlds, steps, i);
    }
  }

  /** A call that writes an earlier deadline, and one that looks at it when that is over. */
  lemma EndsEarly(w: World, u: nat, id: nat)
    requires CallsInv(w) && id in w.calls && Defers(w.calls[id])
    requires w.calls[id].stage.deadline < u && w.shared.clock < u
    ensures !LastsUntil(w, u)
  {
    var d := w.calls[id].stage.deadline;
    assert CallOk(w.calls[id], w.shared.usable);
    var other := FreshId(w.calls);
    var worlds, steps := [w], [];
    worlds, steps := Going(w, worlds, steps, Act(id, Defer));
    worlds, steps := Going(w, worlds, steps, Happen(Tick(if d > w.shared.clock then d - w.shared.clock else 0)));
    worlds, steps := Going(w, worlds, steps, Happen(Update(Preferred)));
    worlds, steps := Going(w, worlds, steps, Begin(other, w.calls[id].key));
    worlds, steps := Going(w, worlds, steps, Act(other, Authorize(true)));
    worlds, steps := Going(w, worlds, steps, Act(other, Choose));
    assert worlds[|steps|].calls[other].stage == Checking;
    ghost var n := |steps|;
    worlds, steps := Going(w, worlds, steps, Act(other, Check));
    assert !GoesToTcp(worlds, steps, n, u);
  }

  /** Nothing but a reset ends the period that lasts until `u` before `u`, if and only if no call that
      has failed is about to write an earlier deadline: one that had read the clock before. */
  lemma FallbackLastsExactlyWhen(w: World, u: nat)
    requires Inv(w) && w.shared.until == Some(u) && w.shared.clock < u
    ensures LastsUntil(w, u) <==> NoneEarlier(w, u)
  {
    if NoneEarlier(w, u) {
      forall worlds: seq<World>, steps: seq<Step>, i: nat | Continuation(w, worlds, steps) && i < |steps|
        ensures GoesToTcp(worlds, steps, i, u)
      {
        PutOffThroughout(w, worlds, steps, i, u);
        assert Stepped(worlds, steps, i);
        if steps[i].Act? && steps[i].action.Check? && worlds[i].shared.clock < u {
          CheckedIsPutOff(worlds[i], steps[i], u);
        }
      }
    } else {
      var id :| id in w.calls && Defers(w.calls[id]) && w.calls[id].stage.deadline < u;
      EndsEarly(w, u, id);
    }
  }

  // ---- A slower call shortens the period ----

  const START := World(Shared(0, true, false, Preferred, None, None, map[], [], map[], 0), map[])
  const KEY := Key("gateway", 443, false)

  /** A call that is about to look up a connection. */
  lemma Waiting(worlds: seq<World>, steps: seq<Step>, id: nat) returns (worlds': seq<World>, steps': seq<Step>)
    requires Continuation(START, worlds, steps)
    requires var w := worlds[|steps|]; id !in w.calls && w.shared == START.shared
    ensures Continuation(START, worlds', steps')
    ensures var call := Call(KEY, Wanting(None), false, Preferred, [], false, 0);
            worlds'[|steps'|] == World(START.shared, worlds[|steps|].calls[id := call])
  {
    worlds', steps' := Going(START, worlds, steps, Begin(id, KEY));
    worlds', steps' := Going(START, worlds', steps', Act(id, Authorize(true)));
    worlds', steps' := Going(START, worlds', steps', Act(id, Choose));
    worlds', steps' := Going(START, worlds', steps', Act(id, Check));
  }

  /** Call 0 fails at 0 s and is overtaken by call 1, which fails at 1 s and puts HTTP/3 off until
      61 s; then call 0 makes that 60 s. */
  lemma SlowerCallShortensThePeriod() returns (worlds: seq<World>, steps: seq<Step>)
    ensures Run(worlds, steps) && steps != []
    ensures var w := worlds[|steps| - 1];
            && w.shared.until == Some(61 * SECOND) && worlds[|steps|].shared.until == Some(60 * SECOND)
            && w.shared.clock == worlds[|steps|].shared.clock == SECOND
            && !LastsUntil(w, 61 * SECOND)
  {
    worlds, steps := [START], [];
    worlds, steps := Waiting(worlds, steps, 0);
    worlds, steps := Waiting(worlds, steps, 1);
    worlds, steps := Going(START, worlds, steps, Act(0, Enter));
    worlds, steps := Going(START, worlds, steps, Act(0, Establish(false)));
    worlds, steps := Going(START, worlds, steps, Act(1, Enter));
    worlds, steps := Going(START, worlds, steps, Happen(Tick(SECOND)));
    worlds, steps := Going(START, worlds, steps, Act(1, Establish(false)));
    worlds, steps := Going(START, worlds, steps, Act(1, Defer));
    var w := worlds[|steps|];
    assert w.shared.until == Some(61 * SECOND) && w.calls[0].stage == Deferring(60 * SECOND);
    worlds, steps := Going(START, worlds, steps, Act(0, Defer));
    assert Run(worlds, steps);
    InvAlways(worlds, steps, |steps| - 1);
    EndsEarly(w, 61 * SECOND, 0);
  }
}

/** Every interleaving of `connect_gateway` calls over the shared HTTP/3 state: the cache behind its
    asynchronous mutex, the fallback deadline, the tunnel counters and the mode switch.

    A step is what one task does between two awaits, or less where threads can come between: reading
    the clock and writing the deadline are two steps, and so are counting a tunnel and starting the
    task whose end uncounts it. A request that is given up (its time is over, or its tunnel is gone)
    is dropped where it awaits. */
module Http3Protocol {
  import opened Wrappers
  import opened Http3

  /** A QUIC connection: its tunnel counter, and whether it has closed. */
  datatype Connection = Connection(tunnels: int, closed: bool)

  datatype Stage =
    | Authorizing
    | Choosing                                              // about to read the mode
    | Checking                                              // about to look at the deadline
    | Wanting(broken: Option<nat>)                          // waits for the lock in `session`
    | Establishing(broken: Option<nat>)                     // holds it
    | Requesting(broken: Option<nat>, on: nat, cached: bool)  // in `open_stream`
    | Counted(on: nat)                                      // in `open_stream`, the counter raised
    | Removing(again: bool, on: nat)                        // waits for the lock to forget the connection
    | Deferring(deadline: nat)                              // about to start the fallback period
    | Dialling                                              // over TCP
    | Reporting                                             // in `rejected`
    | Ended(open: bool)

  /** One `connect_gateway`: its round, the mode it read in it, the connections it sent requests on
      and whether it dialled in it, and the handshakes of the rounds before. */
  datatype Call = Call(key: Key, stage: Stage, renewed: bool, mode: Mode, asked: seq<nat>, dialled: bool, before: nat)

  /** What the calls share. */
  datatype Shared = Shared(
    clock: nat,
    usable: bool,                    // whether HTTP/3 is, with this gateway and upstream proxy
    canRenew: bool,
    mode: Mode,
    until: Option<nat>,
    lock: Option<nat>,
    cache: map<Key, nat>,
    connections: seq<Connection>,
    pumps: map<nat, nat>,            // the tasks that hold a tunnel guard, and on which connection
    resets: nat)                     // `reset_sessions` calls that have cleared the cache

  datatype World = World(shared: Shared, calls: map<nat, Call>)

  datatype Action =
    | Authorize(ok: bool)
    | Choose
    | Check
    | Enter
    | Establish(ok: bool)
    | Respond(answer: Answer)
    | Guard(pump: nat)
    | Remove
    | Defer
    | Dial(answer: Answer)
    | Report
    | Abort

  datatype Event =
    | Tick(elapsed: nat)
    | EndPump(pump: nat)
    | CloseConnection(on: nat)
    | ClearCache
    | ClearDeadline
    | Update(mode: Mode)

  datatype Step =
    | Begin(id: nat, key: Key)
    | Act(id: nat, action: Action)
    | Happen(event: Event)

  predicate CanAct(s: Shared, call: Call, action: Action) {
    match action
    case Authorize(_) => call.stage.Authorizing?
    case Choose => call.stage.Choosing?
    case Check => call.stage.Checking?
    case Enter => call.stage.Wanting? && s.lock == None
    case Establish(_) => call.stage.Establishing?
    case Respond(_) => call.stage.Requesting?
    case Guard(pump) => call.stage.Counted? && pump !in s.pumps
    case Remove => call.stage.Removing? && s.lock == None
    case Defer => call.stage.Deferring?
    case Dial(_) => call.stage.Dialling?
    case Report => call.stage.Reporting?
    case Abort => !call.stage.Ended? && !call.stage.Counted?
  }

  predicate CanHappen(s: Shared, event: Event) {
    match event
    case Tick(_) => true
    case EndPump(pump) => pump in s.pumps
    case CloseConnection(on) => on < |s.connections|
    case ClearCache => s.lock == None
    case ClearDeadline => s.resets > 0
    case Update(_) => true
  }

  predicate Enabled(w: World, step: Step) {
    match step
    case Begin(id, _) => id !in w.calls
    case Act(id, action) => id in w.calls && CanAct(w.shared, w.calls[id], action)
    case Happen(event) => CanHappen(w.shared, event)
  }

  // ---- What a call does next ----

  /** After an error that `connect_websocket` returns. */
  function AfterError(call: Call, failure: Failure, canRenew: bool): Stage {
    if failure == Http(UNAUTHORIZED) && !call.renewed && canRenew then Reporting else Ended(false)
  }

  /** After `try_connect` failed. */
  function AfterFailure(call: Call, failure: Failure, canRenew: bool, clock: nat): Stage {
    match Conclude(Failed(failure), call.mode.Only?)
    case Refused(_) => AfterError(call, failure, canRenew)
    case _ => Deferring(clock + FALLBACK_PERIOD)
  }

  function Request(call: Call, broken: Option<nat>, on: nat, cached: bool): Call {
    call.(stage := Requesting(broken, on, cached), asked := call.asked + [on])
  }

  function ByTcp(call: Call): Call {
    call.(stage := Dialling, dialled := true)
  }

  function Chosen(call: Call, mode: Mode, usable: bool): Call {
    if mode.Off? || !usable then ByTcp(call.(mode := mode))
    else call.(mode := mode, stage := if mode.Only? then Wanting(None) else Checking)
  }

  /** A request that failed: one on a cached connection that broke is repeated, after the connection
      is forgotten; one that was repeated and broke leaves no connection either. */
  function Answered(call: Call, failure: Failure, canRenew: bool, clock: nat): Stage
    requires call.stage.Requesting?
  {
    var stage := call.stage;
    if failure.Broken? && (stage.broken.Some? || stage.cached) then Removing(stage.broken.Some?, stage.on)
    else AfterFailure(call, failure, canRenew, clock)
  }

  function Renewed(call: Call): Call {
    call.(stage := Authorizing, renewed := true, asked := [], dialled := false,
          before := call.before + |call.asked| + if call.dialled then 1 else 0)
  }

  // ---- The steps ----

  predicate Cached(s: Shared, key: Key) {
    key in s.cache && s.cache[key] < |s.connections| && Usable(s.cache, key, s.connections[s.cache[key]].closed)
  }

  function NextCall(s: Shared, call: Call, action: Action): Call
    requires CanAct(s, call, action)
  {
    match action
    case Authorize(ok) => call.(stage := if ok then Choosing else Ended(false))
    case Choose => Chosen(call, s.mode, s.usable)
    case Check => if PutOff(s.until, s.clock) then ByTcp(call) else call.(stage := Wanting(None))
    case Enter =>
      if Cached(s, call.key) then Request(call, call.stage.broken, s.cache[call.key], true)
      else call.(stage := Establishing(call.stage.broken))
    case Establish(ok) =>
      if ok then Request(call, call.stage.broken, |s.connections|, false)
      else call.(stage := AfterFailure(call, Broken, s.canRenew, s.clock))
    case Respond(Opened) => call.(stage := Counted(call.stage.on))
    case Respond(Failed(failure)) => call.(stage := Answered(call, failure, s.canRenew, s.clock))
    case Guard(_) => call.(stage := Ended(true))
    case Remove =>
      call.(stage := if call.stage.again then AfterFailure(call, Broken, s.canRenew, s.clock)
                     else Wanting(Some(call.stage.on)))
    case Defer => ByTcp(call)
    case Dial(Opened) => call.(stage := Ended(true))
    case Dial(Failed(failure)) => call.(stage := AfterError(call, failure, s.canRenew))
    case Report => Renewed(call)
    case Abort => call.(stage := Ended(false))
  }

  function Count(connections: seq<Connection>, on: nat, change: int): seq<Connection> {
    if on < |connections| then connections[on := connections[on].(tunnels := connections[on].tunnels + change)]
    else connections
  }

  function NextShared(s: Shared, id: nat, call: Call, action: Action): Shared
    requires CanAct(s, call, action)
  {
    match action
    case Check => s.(until := Remembered(s.until, s.clock))
    case Enter => if Cached(s, call.key) then s else s.(cache := s.cache - {call.key}, lock := Some(id))
    case Establish(true) =>
      s.(lock := None, cache := s.cache[call.key := |s.connections|],
         connections := s.connections + [Connection(0, false)])
    case Establish(false) => s.(lock := None)
    case Respond(Opened) => s.(connections := Count(s.connections, call.stage.on, 1))
    case Guard(pump) => s.(pumps := s.pumps[pump := call.stage.on])
    case Remove => s.(cache := s.cache - {call.key})
    case Defer => s.(until := Some(call.stage.deadline))
    case Abort => s.(lock := if s.lock == Some(id) then None else s.lock)
    case _ => s
  }

  function AfterEvent(s: Shared, event: Event): Shared
    requires CanHappen(s, event)
  {
    match event
    case Tick(elapsed) => s.(clock := s.clock + elapsed)
    case EndPump(pump) => s.(pumps := s.pumps - {pump}, connections := Count(s.connections, s.pumps[pump], -1))
    case CloseConnection(on) => s.(connections := s.connections[on := s.connections[on].(closed := true)])
    case ClearCache => s.(cache := map[], resets := s.resets + 1)
    case ClearDeadline => s.(until := None, resets := s.resets - 1)
    case Update(mode) => s.(mode := if s.usable || mode.Off? then mode else s.mode)
  }

  function Apply(w: World, step: Step): World
    requires Enabled(w, step)
  {
    match step
    case Begin(id, key) => w.(calls := w.calls[id := Call(key, Authorizing, false, Off, [], false, 0)])
    case Act(id, action) =>
      World(NextShared(w.shared, id, w.calls[id], action),
            w.calls[id := NextCall(w.shared, w.calls[id], action)])
    case Happen(event) => w.(shared := AfterEvent(w.shared, event))
  }

  predicate InitShared(s: Shared) {
    && (s.mode != Off ==> s.usable)
    && s.until == None && s.lock == None && s.cache == map[] && s.connections == [] && s.pumps == map[] && s.resets == 0
  }

  predicate Init(w: World) {
    InitShared(w.shared) && w.calls == map[]
  }

  predicate Stepped(worlds: seq<World>, steps: seq<Step>, i: nat) {
    && i < |steps| && i + 1 < |worlds|
    && Enabled(worlds[i], steps[i])
    && worlds[i + 1] == Apply(worlds[i], steps[i])
  }

  ghost predicate Run(worlds: seq<World>, steps: seq<Step>) {
    && |worlds| == |steps| + 1
    && Init(worlds[0])
    && forall i: nat {:trigger Stepped(worlds, steps, i)} | i < |steps| :: Stepped(worlds, steps, i)
  }
}

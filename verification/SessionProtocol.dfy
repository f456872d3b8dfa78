/** Every interleaving of tunnels, the background task, the clock and the router over one
    `TokenSession`.

    A step is what one task does between two awaits (taking the mutex is the end of an await, so a
    step that takes it also does what follows), a reply of the router, or the passing of time. */
module SessionProtocol {
  import opened Wrappers
  import opened Session

  datatype Task = Tunnel(id: nat) | Background

  /** A renewal under way: it holds the lock and has one request in flight. `entered` is the state
      it found when it took the lock. */
  datatype Pending =
    | AwaitingRefresh(entered: Option<Tokens>, enteredAt: nat)
    | AwaitingLogin(entered: Option<Tokens>, enteredAt: nat, refused: Option<Reply>)

  function Begin(state: Option<Tokens>, now: nat): Pending {
    if RefreshUsable(state, now) then AwaitingRefresh(state, now) else AwaitingLogin(state, now, None)
  }

  datatype Progress = Continue(pending: Pending) | Finish(renewal: Renewal)

  /** What is done with a reply, `state` being what the mutex guards then. */
  function Proceed(pending: Pending, state: Option<Tokens>, reply: Reply): Progress {
    match pending
    case AwaitingRefresh(entered, enteredAt) => (
      match Judge(reply)
      case Fresh(tokens) => Finish(Renewal(Some(tokens), Renewed, reply.at))
      case Rejected => Continue(AwaitingLogin(entered, enteredAt, Some(reply)))
      case Failed => Finish(Renewal(state, Unavailable, reply.at)))
    case AwaitingLogin(_, _, _) => Finish(AfterLogin(state, reply))
  }

  /** The `renewed` flag of `connect_gateway`, with the token that was refused and how many
      postponements there had been when that was reported. */
  datatype Round = First | Second(refused: string, postponedBefore: nat)

  datatype Stage =
    | Asking(round: Round)                                  // waits for the lock in `authorization`
    | Renewing(round: Round, pending: Pending)              // holds it
    | Connecting(round: Round, token: string, postponedThen: nat)   // in `connect_websocket`
    | Reporting(token: string)                              // waits for the lock in `rejected`
    | Connected
    | Ended

  datatype TunnelTask = TunnelTask(stage: Stage, attempts: nat)

  datatype BackgroundTask =
    | Looping(failures: nat, retryAt: Option<nat>)          // about to upgrade the weak reference
    | Peeking(now: nat, failures: nat, retryAt: Option<nat>)
    | Sleeping(until: nat, failures: nat, retryAt: Option<nat>)
    | Waking(failures: nat, retryAt: Option<nat>)           // waits for the lock to renew
    | Attempting(failures: nat, pending: Pending)           // holds it
    | Exited

  /** A successful answer; `exchanged` is the refresh token it was given for, if any. */
  datatype Issue = Issue(at: nat, tokens: Tokens, exchanged: Option<string>)

  /** A refresh token sent to the router when `issued` answers had been successful. */
  datatype Presentation = Presentation(token: string, issued: nat)

  /** An access token handed to a tunnel: when, whether this call obtained it, when it runs out. */
  datatype Handover = Handover(token: string, at: nat, obtained: bool, expires: nat)

  /** A background attempt and the times of the failures in a row that came before it. */
  datatype Start = Start(at: nat, row: seq<nat>)

  datatype World = World(
    clock: nat,
    lock: Option<Task>,
    state: Option<Tokens>,
    tunnels: map<nat, TunnelTask>,
    background: BackgroundTask,
    outside: bool,                    // whether anything but the background task holds the session
    // What happened so far.
    issues: seq<Issue>,
    presented: seq<Presentation>,
    reported: set<string>,            // access tokens `rejected` found to be current
    postponed: seq<string>,           // access tokens kept after a failed renewal
    handed: seq<Handover>,
    row: seq<nat>,                    // times of the background failures in a row
    starts: seq<Start>,
    requests: nat)                    // token requests sent

  datatype GatewayVerdict = Accepted | Unauthorized | Broken

  datatype Step =
    | Tick(elapsed: nat)
    | Open(id: nat)
    | Ask(id: nat)
    | Receive(task: Task, response: Response)
    | Connect(id: nat, verdict: GatewayVerdict)
    | Report(id: nat)
    | Cancel(id: nat)
    | DropHandle
    | Loop
    | Peek
    | Wake
    | Attempt

  predicate Active(stage: Stage) {
    !stage.Connected? && !stage.Ended?
  }

  predicate Waits(w: World, task: Task) {
    match task
    case Tunnel(id) => id in w.tunnels && w.tunnels[id].stage.Renewing?
    case Background => w.background.Attempting?
  }

  function PendingOf(w: World, task: Task): Pending
    requires Waits(w, task)
  {
    match task
    case Tunnel(id) => w.tunnels[id].stage.pending
    case Background => w.background.pending
  }

  /** The one thing asked of the router: tokens it issues were never issued before. */
  predicate NewTokens(issues: seq<Issue>, tokens: Tokens) {
    forall i | 0 <= i < |issues| ::
      issues[i].tokens.access != tokens.access && issues[i].tokens.refresh != tokens.refresh
  }

  predicate Enabled(w: World, step: Step) {
    match step
    case Tick(_) => true
    case Open(id) => w.outside && id !in w.tunnels
    case Ask(id) => id in w.tunnels && w.tunnels[id].stage.Asking? && w.lock == None
    case Receive(task, response) =>
      && Waits(w, task)
      && (Judge(Reply(response, w.clock)).Fresh? ==> NewTokens(w.issues, Judge(Reply(response, w.clock)).tokens))
    case Connect(id, _) => id in w.tunnels && w.tunnels[id].stage.Connecting?
    case Report(id) => id in w.tunnels && w.tunnels[id].stage.Reporting? && w.lock == None
    case Cancel(id) => id in w.tunnels && Active(w.tunnels[id].stage)
    case DropHandle => w.outside && forall id <- w.tunnels :: !Active(w.tunnels[id].stage)
    case Loop => w.background.Looping?
    case Peek => w.background.Peeking? && w.lock == None
    case Wake => w.background.Sleeping? && w.clock >= w.background.until
    case Attempt => w.background.Waking? && w.lock == None
  }

  function Present(w: World, pending: Pending): seq<Presentation> {
    if pending.AwaitingRefresh? && w.state.Some? then
      w.presented + [Presentation(w.state.value.refresh, |w.issues|)]
    else
      w.presented
  }

  function Record(w: World, pending: Pending, renewal: Renewal): seq<Issue> {
    if renewal.outcome.Renewed? && renewal.state.Some? then
      var exchanged := if pending.AwaitingRefresh? && w.state.Some? then Some(w.state.value.refresh) else None;
      w.issues + [Issue(renewal.at, renewal.state.value, exchanged)]
    else
      w.issues
  }

  function SetStage(w: World, id: nat, stage: Stage): World
    requires id in w.tunnels
  {
    w.(tunnels := w.tunnels[id := w.tunnels[id].(stage := stage)])
  }

  /** `authorization` hands `token` to tunnel `id`, which starts a connection attempt with it. */
  function HandOver(w: World, id: nat, round: Round, token: string, obtained: bool, expires: nat): World
    requires id in w.tunnels
  {
    var tunnel := TunnelTask(Connecting(round, token, |w.postponed|), w.tunnels[id].attempts + 1);
    w.(tunnels := w.tunnels[id := tunnel], handed := w.handed + [Handover(token, w.clock, obtained, expires)])
  }

  function AskStep(w: World, id: nat): World
    requires Enabled(w, Ask(id))
  {
    var round := w.tunnels[id].stage.round;
    if Due(w.state, w.clock) then
      var pending := Begin(w.state, w.clock);
      SetStage(w, id, Renewing(round, pending)).(
        lock := Some(Tunnel(id)), presented := Present(w, pending), requests := w.requests + 1)
    else
      HandOver(w, id, round, w.state.value.access, false, w.state.value.accessExpires)
  }

  function TunnelFinish(w: World, id: nat, renewal: Renewal): World
    requires Waits(w, Tunnel(id))
  {
    var round, pending := w.tunnels[id].stage.round, w.tunnels[id].stage.pending;
    var (state, token) := Settle(renewal);
    var kept := !renewal.outcome.Renewed? && token.Some?;
    var after := w.(
      lock := None,
      state := state,
      issues := Record(w, pending, renewal),
      postponed := if kept then w.postponed + [token.value] else w.postponed);
    if token.Some? && state.Some? then
      HandOver(after, id, round, token.value, renewal.outcome.Renewed?, state.value.accessExpires)
    else
      SetStage(after, id, Ended)
  }

  function BackgroundFinish(w: World, renewal: Renewal): World
    requires Waits(w, Background)
  {
    var (failures, retryAt) := AfterAttempt(!renewal.outcome.Renewed?, w.background.failures, renewal.at);
    w.(
      lock := None,
      state := renewal.state,
      issues := Record(w, w.background.pending, renewal),
      background := Looping(failures, retryAt),
      row := if renewal.outcome.Renewed? then [] else w.row + [renewal.at])
  }

  function ReceiveStep(w: World, task: Task, response: Response): World
    requires Enabled(w, Receive(task, response))
  {
    match Proceed(PendingOf(w, task), w.state, Reply(response, w.clock))
    case Continue(pending) => (
      match task
      case Tunnel(id) =>
        SetStage(w, id, Renewing(w.tunnels[id].stage.round, pending)).(requests := w.requests + 1)
      case Background =>
        w.(background := Attempting(w.background.failures, pending), requests := w.requests + 1))
    case Finish(renewal) => (
      match task
      case Tunnel(id) => TunnelFinish(w, id, renewal)
      case Background => BackgroundFinish(w, renewal))
  }

  function ConnectStep(w: World, id: nat, verdict: GatewayVerdict): World
    requires Enabled(w, Connect(id, verdict))
  {
    var stage := w.tunnels[id].stage;
    match verdict
    case Accepted => SetStage(w, id, Connected)
    case Unauthorized => SetStage(w, id, if stage.round.First? then Reporting(stage.token) else Ended)
    case Broken => SetStage(w, id, Ended)
  }

  function ReportStep(w: World, id: nat): World
    requires Enabled(w, Report(id))
  {
    var token := w.tunnels[id].stage.token;
    var current := w.state.Some? && w.state.value.access == token;
    SetStage(w, id, Asking(Second(token, |w.postponed|))).(
      state := AfterReject(w.state, BearerValue(token), w.clock),
      reported := if current then w.reported + {token} else w.reported)
  }

  function AttemptStep(w: World): World
    requires Enabled(w, Attempt)
  {
    if Due(w.state, w.clock) then
      var pending := Begin(w.state, w.clock);
      w.(lock := Some(Background),
         background := Attempting(w.background.failures, pending),
         presented := Present(w, pending),
         requests := w.requests + 1,
         starts := w.starts + [Start(w.clock, w.row)])
    else
      w.(background := Looping(0, None), row := [])
  }

  function Apply(w: World, step: Step): World
    requires Enabled(w, step)
  {
    match step
    case Tick(elapsed) => w.(clock := w.clock + elapsed)
    case Open(id) => w.(tunnels := w.tunnels[id := TunnelTask(Asking(First), 0)])
    case Ask(id) => AskStep(w, id)
    case Receive(task, response) => ReceiveStep(w, task, response)
    case Connect(id, verdict) => ConnectStep(w, id, verdict)
    case Report(id) => ReportStep(w, id)
    case Cancel(id) => SetStage(w, id, Ended).(lock := if w.lock == Some(Tunnel(id)) then None else w.lock)
    case DropHandle => w.(outside := false)
    case Loop =>
      w.(background := if w.outside then Peeking(w.clock, w.background.failures, w.background.retryAt) else Exited)
    case Peek =>
      var b := w.background;
      w.(background := Sleeping(w.clock + UntilRenewal(w.state, b.retryAt, b.now), b.failures, b.retryAt))
    case Wake =>
      w.(background := if w.outside then Waking(w.background.failures, w.background.retryAt) else Exited)
    case Attempt => AttemptStep(w)
  }

  /** The session right after a successful login: its first tokens are there, no tunnel is open,
      and the background task has just been spawned. */
  ghost predicate Init(w: World) {
    && w.lock == None
    && w.state.Some?
    && (exists response :: IntoTokens(response, w.clock) == w.state)
    && w.tunnels == map[]
    && w.background == Looping(0, None)
    && w.outside
    && w.issues == [Issue(w.clock, w.state.value, None)]
    && w.presented == [] && w.reported == {} && w.postponed == [] && w.handed == []
    && w.row == [] && w.starts == [] && w.requests == 0
  }

  predicate Stepped(worlds: seq<World>, steps: seq<Step>, i: nat) {
    && i < |steps| && i + 1 < |worlds|
    && Enabled(worlds[i], steps[i])
    && worlds[i + 1] == Apply(worlds[i], steps[i])
  }

  ghost predicate Run(worlds: seq<World>, steps: seq<Step>) {
    && |worlds| == |steps| + 1
    && Init(worlds[0])
    && forall i: nat {:trigger Stepped(worlds, steps, i)} | i < |steps| :: Stepped(worlds, steps, i)
  }
}

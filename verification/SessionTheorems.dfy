/** What holds in every run of the token session protocol. */
module SessionTheorems {
  import opened Wrappers
  import opened Clock
  import opened Session
  import opened SessionProtocol
  import opened SessionInvariants
  import opened SessionTiming

  ghost predicate Inv(w: World) {
    CoreInv(w) && TimingInv(w) && StaleInv(w) && TunnelInv(w) && BackoffInv(w)
  }

  lemma InitHolds(w: World)
    requires Init(w)
    ensures Inv(w)
  {
    var response :| IntoTokens(response, w.clock) == w.state;
  }

  lemma InvKept(w: World, step: Step)
    requires Inv(w) && Enabled(w, step)
    ensures Inv(Apply(w, step))
  {
    CoreKept(w, step);
    TimingKept(w, step);
    StaleKept(w, step);
    TunnelsKept(w, step);
    BackoffKept(w, step);
  }

  lemma {:induction false} InvAlways(worlds: seq<World>, steps: seq<Step>, i: nat)
    requires Run(worlds, steps) && i < |worlds|
    ensures Inv(worlds[i])
  {
    if i == 0 {
      InitHolds(worlds[0]);
    } else {
      InvAlways(worlds, steps, i - 1);
      assert Stepped(worlds, steps, i - 1);
      InvKept(worlds[i - 1], steps[i - 1]);
    }
  }

  // ---- One renewal at a time, single-use refresh tokens ----

  /** At most one token request is in flight, by the holder of the lock, and the state is always
      the last successful answer (only `renewAt` may have moved). */
  lemma OneRequestInFlight(worlds: seq<World>, steps: seq<Step>, i: nat)
    requires Run(worlds, steps) && i < |worlds|
    ensures var w := worlds[i];
            && (forall t1, t2 | Waits(w, t1) && Waits(w, t2) :: t1 == t2)
            && w.state.Some? && w.issues != []
            && w.state.value.(renewAt := 0) == Last(w.issues).tokens.(renewAt := 0)
  {
    InvAlways(worlds, steps, i);
    var w := worlds[i];
    forall t1, t2 | Waits(w, t1) && Waits(w, t2) ensures t1 == t2 {
      assert w.lock == Some(t1) && w.lock == Some(t2);
    }
  }

  /** Every refresh token presented is the one the last successful answer brought, and one that was
      exchanged for tokens is not presented after that. */
  lemma RefreshTokensAreSingleUse(worlds: seq<World>, steps: seq<Step>, i: nat)
    requires Run(worlds, steps) && i < |worlds|
    ensures var w := worlds[i];
            && (forall p <- w.presented ::
                  1 <= p.issued <= |w.issues| && p.token == w.issues[p.issued - 1].tokens.refresh)
            && (forall k, p | 0 <= k < |w.issues| && w.issues[k].exchanged.Some? && p in w.presented && p.issued > k ::
                  p.token != w.issues[k].exchanged.value)
  {
    InvAlways(worlds, steps, i);
    var w := worlds[i];
    forall k, p | 0 <= k < |w.issues| && w.issues[k].exchanged.Some? && p in w.presented && p.issued > k
      ensures p.token != w.issues[k].exchanged.value
    {
      NeverAgain(w.issues, w.presented, k, p);
    }
  }

  lemma NeverAgain(issues: seq<Issue>, presented: seq<Presentation>, k: nat, p: Presentation)
    requires PresentedOk(issues, presented) && Distinct(issues)
    requires k < |issues| && issues[k].exchanged.Some? && p in presented && p.issued > k
    ensures p.token != issues[k].exchanged.value
  {
    var exchange := Presentation(issues[k].exchanged.value, k);
    assert exchange in presented;
    assert exchange.token == issues[k - 1].tokens.refresh;
    assert issues[k - 1].tokens.refresh != issues[p.issued - 1].tokens.refresh;
  }

  // ---- Interleaved calls are atomic calls ----

  /** The replies a renewal got, the last of which is `reply`. */
  function Replies(pending: Pending, reply: Reply): (Reply, Reply) {
    if pending.AwaitingLogin? && pending.refused.Some? then (pending.refused.value, reply) else (reply, reply)
  }

  /** What a renewal found when it took the lock is remembered unchanged while it waits. */
  lemma EnteredStays(w: World, step: Step, task: Task)
    requires LockInv(w) && Enabled(w, step) && Waits(w, task) && Waits(Apply(w, step), task)
    ensures PendingOf(Apply(w, step), task).entered == PendingOf(w, task).entered
    ensures PendingOf(Apply(w, step), task).enteredAt == PendingOf(w, task).enteredAt
  {
    assert w.lock == Some(task);
    assert step.Receive? ==> Waits(w, step.task);
  }

  function TakesLock(task: Task): Step {
    if task.Tunnel? then Ask(task.id) else Attempt
  }

  lemma EntersWith(w: World, task: Task)
    requires Enabled(w, TakesLock(task)) && Waits(Apply(w, TakesLock(task)), task)
    ensures var pending := PendingOf(Apply(w, TakesLock(task)), task);
            pending.entered == w.state && pending.enteredAt == w.clock
  {
  }

  lemma HeldOneStep(worlds: seq<World>, steps: seq<Step>, k: nat, task: Task)
    requires Run(worlds, steps) && k < |steps| && Waits(worlds[k], task) && Waits(worlds[k + 1], task)
    ensures PendingOf(worlds[k + 1], task).entered == PendingOf(worlds[k], task).entered
    ensures PendingOf(worlds[k + 1], task).enteredAt == PendingOf(worlds[k], task).enteredAt
  {
    InvAlways(worlds, steps, k);
    assert Stepped(worlds, steps, k);
    EnteredStays(worlds[k], steps[k], task);
  }

  lemma HeldFromTheStart(worlds: seq<World>, steps: seq<Step>, i: nat, task: Task)
    requires Run(worlds, steps) && i < |steps| && steps[i] == TakesLock(task) && Waits(worlds[i + 1], task)
    ensures PendingOf(worlds[i + 1], task).entered == worlds[i].state
    ensures PendingOf(worlds[i + 1], task).enteredAt == worlds[i].clock
  {
    assert Stepped(worlds, steps, i);
    EntersWith(worlds[i], task);
  }

  lemma {:induction false} HeldThroughout(worlds: seq<World>, steps: seq<Step>, i: nat, j: nat, task: Task)
    requires Run(worlds, steps) && i < j < |worlds|
    requires steps[i] == TakesLock(task)
    requires forall k | i < k <= j :: Waits(worlds[k], task)
    ensures worlds[j].state == worlds[i].state
    ensures PendingOf(worlds[j], task).entered == worlds[i].state
    ensures PendingOf(worlds[j], task).enteredAt == worlds[i].clock
  {
    if j > i + 1 {
      HeldThroughout(worlds, steps, i, j - 1, task);
      HeldOneStep(worlds, steps, j - 1, task);
    } else {
      HeldFromTheStart(worlds, steps, i, task);
    }
    StillAsFound(worlds, steps, j, task);
  }

  lemma StillAsFound(worlds: seq<World>, steps: seq<Step>, j: nat, task: Task)
    requires Run(worlds, steps) && j < |worlds| && Waits(worlds[j], task)
    ensures worlds[j].state == PendingOf(worlds[j], task).entered
  {
    InvAlways(worlds, steps, j);
    assert PendingOk(worlds[j], PendingOf(worlds[j], task));
  }

  /** A tunnel's last reply ends its call as `Authorized` says for the state it had entered with. */
  lemma LastReply(w: World, id: nat, response: Response)
    requires CoreInv(w) && Enabled(w, Receive(Tunnel(id), response))
    requires !Waits(Apply(w, Receive(Tunnel(id), response)), Tunnel(id))
    ensures var w' := Apply(w, Receive(Tunnel(id), response));
            var pending := PendingOf(w, Tunnel(id));
            var (refresh, login) := Replies(pending, Reply(response, w.clock));
            var (state, token) := Authorized(pending.entered, pending.enteredAt, refresh, login);
            && w'.state == state
            && var stage := w'.tunnels[id].stage;
               if token.Some? then stage.Connecting? && stage.token == token.value else stage.Ended?
  {
    assert PendingOk(w, PendingOf(w, Tunnel(id)));
  }

  /** Whatever other tasks do meanwhile, a call of `authorization` that took the lock in world `i`
      and ends with the reply of step `j` leaves the state, and hands out the token, that
      `Authorized` gives for the state found in world `i` and the replies the router gave; nothing
      changes the state in between. */
  lemma AuthorizationIsAtomic(worlds: seq<World>, steps: seq<Step>, i: nat, j: nat, id: nat, response: Response)
    requires Run(worlds, steps) && i < j < |steps|
    requires steps[i] == Ask(id) && steps[j] == Receive(Tunnel(id), response)
    requires forall k | i < k <= j :: Waits(worlds[k], Tunnel(id))
    requires !Waits(worlds[j + 1], Tunnel(id))
    ensures forall k | i < k <= j :: worlds[k].state == worlds[i].state
    ensures var (refresh, login) := Replies(PendingOf(worlds[j], Tunnel(id)), Reply(response, worlds[j].clock));
            var (state, token) := Authorized(worlds[i].state, worlds[i].clock, refresh, login);
            && worlds[j + 1].state == state && id in worlds[j + 1].tunnels
            && var stage := worlds[j + 1].tunnels[id].stage;
               if token.Some? then stage.Connecting? && stage.token == token.value else stage.Ended?
  {
    forall k | i < k <= j ensures worlds[k].state == worlds[i].state {
      HeldThroughout(worlds, steps, i, k, Tunnel(id));
    }
    HeldThroughout(worlds, steps, i, j, Tunnel(id));
    InvAlways(worlds, steps, j);
    assert Stepped(worlds, steps, j);
    LastReply(worlds[j], id, response);
  }

  /** A background attempt's last reply ends it as `RenewalOf` says for the state it had entered with. */
  lemma LastBackgroundReply(w: World, response: Response)
    requires CoreInv(w) && Enabled(w, Receive(Task.Background, response))
    requires !Waits(Apply(w, Receive(Task.Background, response)), Task.Background)
    ensures var w' := Apply(w, Receive(Task.Background, response));
            var pending := PendingOf(w, Task.Background);
            var (refresh, login) := Replies(pending, Reply(response, w.clock));
            var renewal := RenewalOf(pending.entered, pending.enteredAt, refresh, login);
            var (failures, retryAt) := AfterAttempt(!renewal.outcome.Renewed?, w.background.failures, w.clock);
            w'.state == renewal.state && w'.background == Looping(failures, retryAt)
  {
    assert PendingOk(w, PendingOf(w, Task.Background));
  }

  /** The same for a background attempt, which leaves the failure count and the retry time of its
      outcome. */
  lemma BackgroundAttemptIsAtomic(worlds: seq<World>, steps: seq<Step>, i: nat, j: nat, response: Response)
    requires Run(worlds, steps) && i < j < |steps|
    requires steps[i] == Attempt && steps[j] == Receive(Task.Background, response)
    requires forall k | i < k <= j :: Waits(worlds[k], Task.Background)
    requires !Waits(worlds[j + 1], Task.Background)
    ensures forall k | i < k <= j :: worlds[k].state == worlds[i].state
    ensures var (refresh, login) := Replies(PendingOf(worlds[j], Task.Background), Reply(response, worlds[j].clock));
            var renewal := RenewalOf(worlds[i].state, worlds[i].clock, refresh, login);
            worlds[i].background.Waking? &&
            var (failures, retryAt) :=
              AfterAttempt(!renewal.outcome.Renewed?, worlds[i].background.failures, worlds[j].clock);
            && worlds[j + 1].state == renewal.state
            && worlds[j + 1].background == Looping(failures, retryAt)
  {
    forall k | i < k <= j ensures worlds[k].state == worlds[i].state {
      HeldThroughout(worlds, steps, i, k, Task.Background);
    }
    HeldThroughout(worlds, steps, i, j, Task.Background);
    InvAlways(worlds, steps, j);
    assert Stepped(worlds, steps, j);
    FailuresThroughout(worlds, steps, i, j);
    LastBackgroundReply(worlds[j], response);
  }

  /** The failures a background attempt counts on are those it woke up with. */
  lemma FailuresStay(w: World, step: Step)
    requires LockInv(w) && Enabled(w, step) && Waits(w, Task.Background) && Waits(Apply(w, step), Task.Background)
    ensures Apply(w, step).background.failures == w.background.failures
  {
    assert w.lock == Some(Task.Background);
    assert step.Receive? ==> Waits(w, step.task);
  }

  lemma FailuresOneStep(worlds: seq<World>, steps: seq<Step>, k: nat)
    requires Run(worlds, steps) && k < |steps|
    requires Waits(worlds[k], Task.Background) && Waits(worlds[k + 1], Task.Background)
    ensures worlds[k + 1].background.failures == worlds[k].background.failures
  {
    InvAlways(worlds, steps, k);
    assert Stepped(worlds, steps, k);
    FailuresStay(worlds[k], steps[k]);
  }

  lemma FailuresAtFirst(w: World)
    requires Enabled(w, Attempt) && Waits(Apply(w, Attempt), Task.Background)
    ensures w.background.Waking? && Apply(w, Attempt).background.Attempting?
    ensures Apply(w, Attempt).background.failures == w.background.failures
  {
  }

  lemma {:induction false} FailuresThroughout(worlds: seq<World>, steps: seq<Step>, i: nat, j: nat)
    requires Run(worlds, steps) && i < j < |worlds| && steps[i] == Attempt
    requires forall k | i < k <= j :: Waits(worlds[k], Task.Background)
    ensures worlds[i].background.Waking? && worlds[j].background.Attempting?
    ensures worlds[j].background.failures == worlds[i].background.failures
  {
    if j > i + 1 {
      FailuresThroughout(worlds, steps, i, j - 1);
      FailuresOneStep(worlds, steps, j - 1);
    } else {
      assert Stepped(worlds, steps, i);
      FailuresAtFirst(worlds[i]);
    }
  }

  lemma RefusalStays(w: World, step: Step, task: Task)
    requires LockInv(w) && Enabled(w, step) && Waits(w, task) && Waits(Apply(w, step), task)
    ensures PendingOf(Apply(w, step), task) == PendingOf(w, task)
            || (step.Receive? && step.task == task && PendingOf(w, task).AwaitingRefresh?
                && PendingOf(Apply(w, step), task).AwaitingLogin?
                && PendingOf(Apply(w, step), task).refused == Some(Reply(step.response, w.clock)))
  {
    assert w.lock == Some(task);
    assert step.Receive? ==> Waits(w, step.task);
  }

  lemma NotRefusedAtFirst(w: World, task: Task)
    requires Enabled(w, TakesLock(task)) && Waits(Apply(w, TakesLock(task)), task)
    ensures var pending := PendingOf(Apply(w, TakesLock(task)), task); pending.AwaitingLogin? ==> pending.refused.None?
  {
  }

  lemma RefusalOneStep(worlds: seq<World>, steps: seq<Step>, k: nat, task: Task)
    requires Run(worlds, steps) && k < |steps| && Waits(worlds[k], task) && Waits(worlds[k + 1], task)
    ensures PendingOf(worlds[k + 1], task) == PendingOf(worlds[k], task)
            || (steps[k].Receive? && steps[k].task == task && PendingOf(worlds[k + 1], task).AwaitingLogin?
                && PendingOf(worlds[k + 1], task).refused == Some(Reply(steps[k].response, worlds[k].clock)))
  {
    InvAlways(worlds, steps, k);
    assert Stepped(worlds, steps, k);
    RefusalStays(worlds[k], steps[k], task);
  }

  /** A refusal that a renewal acts on was an answer of the router to it. */
  lemma {:induction false} RefusalWasAnswered(worlds: seq<World>, steps: seq<Step>, i: nat, j: nat, task: Task)
    returns (k: nat)
    requires Run(worlds, steps) && i < j < |worlds| && steps[i] == TakesLock(task)
    requires forall k | i < k <= j :: Waits(worlds[k], task)
    requires PendingOf(worlds[j], task).AwaitingLogin? && PendingOf(worlds[j], task).refused.Some?
    ensures i < k < j && steps[k].Receive? && steps[k].task == task
    ensures PendingOf(worlds[j], task).refused == Some(Reply(steps[k].response, worlds[k].clock))
  {
    if j == i + 1 {
      assert Stepped(worlds, steps, i);
      NotRefusedAtFirst(worlds[i], task);
    } else {
      RefusalOneStep(worlds, steps, j - 1, task);
      if PendingOf(worlds[j], task) == PendingOf(worlds[j - 1], task) {
        k := RefusalWasAnswered(worlds, steps, i, j - 1, task);
      } else {
        k := j - 1;
      }
    }
  }

  /** The requests a renewal has sent when it waits. */
  function SentSoFar(pending: Pending): nat {
    if pending.AwaitingLogin? && pending.refused.Some? then 2 else 1
  }

  lemma RequestsStay(w: World, step: Step, task: Task)
    requires LockInv(w) && Enabled(w, step) && Waits(w, task) && Waits(Apply(w, step), task)
    ensures Apply(w, step).requests + SentSoFar(PendingOf(w, task))
         == w.requests + SentSoFar(PendingOf(Apply(w, step), task))
  {
    assert w.lock == Some(task);
    assert step.Receive? ==> Waits(w, step.task);
  }

  lemma OneRequestAtFirst(w: World, task: Task)
    requires Enabled(w, TakesLock(task)) && Waits(Apply(w, TakesLock(task)), task)
    ensures Apply(w, TakesLock(task)).requests == w.requests + 1
    ensures SentSoFar(PendingOf(Apply(w, TakesLock(task)), task)) == 1
  {
  }

  lemma RequestsOneStep(worlds: seq<World>, steps: seq<Step>, k: nat, task: Task)
    requires Run(worlds, steps) && k < |steps| && Waits(worlds[k], task) && Waits(worlds[k + 1], task)
    ensures worlds[k + 1].requests + SentSoFar(PendingOf(worlds[k], task))
         == worlds[k].requests + SentSoFar(PendingOf(worlds[k + 1], task))
  {
    InvAlways(worlds, steps, k);
    assert Stepped(worlds, steps, k);
    RequestsStay(worlds[k], steps[k], task);
  }

  lemma {:induction false} RequestsThroughout(worlds: seq<World>, steps: seq<Step>, i: nat, j: nat, task: Task)
    requires Run(worlds, steps) && i < j < |worlds| && steps[i] == TakesLock(task)
    requires forall k | i < k <= j :: Waits(worlds[k], task)
    ensures worlds[j].requests == worlds[i].requests + SentSoFar(PendingOf(worlds[j], task))
  {
    if j == i + 1 {
      assert Stepped(worlds, steps, i);
      OneRequestAtFirst(worlds[i], task);
    } else {
      RequestsThroughout(worlds, steps, i, j - 1, task);
      RequestsOneStep(worlds, steps, j - 1, task);
    }
  }

  /** When a renewal's last reply has come, it has sent the requests that `Sent` lists. */
  lemma SentInAll(w: World, task: Task, response: Response)
    requires CoreInv(w) && Enabled(w, Receive(task, response)) && !Waits(Apply(w, Receive(task, response)), task)
    ensures var pending := PendingOf(w, task);
            var (refresh, _) := Replies(pending, Reply(response, w.clock));
            |Sent(pending.entered, pending.enteredAt, refresh)| == SentSoFar(pending)
    ensures Apply(w, Receive(task, response)).requests == w.requests
  {
    assert PendingOk(w, PendingOf(w, task));
  }

  /** Whatever other tasks do meanwhile, from the step that takes the lock to the one that brings the
      last reply, exactly the requests of that renewal are sent. */
  lemma RequestsAreTheRenewals(worlds: seq<World>, steps: seq<Step>, i: nat, j: nat, task: Task, response: Response)
    requires Run(worlds, steps) && i < j < |steps|
    requires steps[i] == TakesLock(task) && steps[j] == Receive(task, response)
    requires forall k | i < k <= j :: Waits(worlds[k], task)
    requires !Waits(worlds[j + 1], task)
    ensures var (refresh, _) := Replies(PendingOf(worlds[j], task), Reply(response, worlds[j].clock));
            worlds[j + 1].requests == worlds[i].requests + |Sent(worlds[i].state, worlds[i].clock, refresh)|
  {
    HeldThroughout(worlds, steps, i, j, task);
    RequestsThroughout(worlds, steps, i, j, task);
    InvAlways(worlds, steps, j);
    assert Stepped(worlds, steps, j);
    SentInAll(worlds[j], task, response);
  }

  // ---- Progress ----

  /** Nothing waits for ever on another task: with the lock free, whatever waits for it can go on, and
      with the lock held, any answer lets its holder go on; everything else can go on at once, or as
      soon as its sleep is over. */
  lemma NothingIsStuck(worlds: seq<World>, steps: seq<Step>, i: nat)
    requires Run(worlds, steps) && i < |worlds|
    ensures var w := worlds[i];
            match w.lock
            case Some(task) => Enabled(w, Receive(task, NoAnswer))
            case None =>
              && (forall id <- w.tunnels ::
                    && (w.tunnels[id].stage.Asking? ==> Enabled(w, Ask(id)))
                    && (w.tunnels[id].stage.Reporting? ==> Enabled(w, Report(id))))
              && (w.background.Peeking? ==> Enabled(w, Peek))
              && (w.background.Waking? ==> Enabled(w, Attempt))
    ensures var w := worlds[i];
            && (forall id <- w.tunnels, verdict | w.tunnels[id].stage.Connecting? :: Enabled(w, Connect(id, verdict)))
            && (w.background.Looping? ==> Enabled(w, Loop))
            && (w.background.Sleeping? && w.clock >= w.background.until ==> Enabled(w, Wake))
            && (w.outside && (forall id <- w.tunnels :: w.tunnels[id].stage in {Stage.Connected, Ended}) ==>
                  Enabled(w, DropHandle))
  {
    InvAlways(worlds, steps, i);
    var w := worlds[i];
    if w.lock.Some? {
      assert Waits(w, w.lock.value);
    }
  }

  /** The background task goes round while something else holds the session, and ends when it finds
      that nothing does. */
  lemma EndsWithTheSession(w: World, step: Step)
    requires Enabled(w, step) && (step.Loop? || step.Wake? || step.DropHandle?)
    ensures step.Loop? || step.Wake? ==> (Apply(w, step).background.Exited? <==> !w.outside)
    ensures step.DropHandle? ==> !Apply(w, step).outside
  {
  }

  // ---- The one retry ----

  /** A tunnel makes at most two connection attempts, and the second carries another token than the
      refused one, unless a renewal of that very token failed between the report and the answer of
      the second `authorization`. */
  lemma RetryCarriesAnotherToken(worlds: seq<World>, steps: seq<Step>, i: nat, id: nat)
    requires Run(worlds, steps) && i < |worlds| && id in worlds[i].tunnels
    ensures var tunnel := worlds[i].tunnels[id];
            && tunnel.attempts <= 2
            && (tunnel.stage.Connecting? && tunnel.attempts == 2 ==>
                  && tunnel.stage.round.Second?
                  && (tunnel.stage.token == tunnel.stage.round.refused ==>
                        Postponed(worlds[i].postponed, tunnel.stage.round.postponedBefore,
                                  tunnel.stage.postponedThen, tunnel.stage.round.refused)))
  {
    InvAlways(worlds, steps, i);
    assert TunnelOk(worlds[i], worlds[i].tunnels[id]);
  }

  /** What a gateway's answer makes of a tunnel: one that is told 401 reports its token the first time,
      and then asks for another; the second time it ends, as it does on any other failure. */
  lemma AnswerDecides(w: World, id: nat, verdict: GatewayVerdict)
    requires Enabled(w, Connect(id, verdict))
    ensures var before, after := w.tunnels[id].stage, Apply(w, Connect(id, verdict)).tunnels[id].stage;
            && (after == Stage.Connected <==> verdict.Accepted?)
            && (after == Reporting(before.token) <==> verdict.Unauthorized? && before.round == First)
            && (after == Ended <==> verdict.Broken? || (verdict.Unauthorized? && before.round != First))
    ensures Apply(w, Connect(id, verdict)) == w.(tunnels := Apply(w, Connect(id, verdict)).tunnels)
  {
  }

  lemma ReportLeadsToAsking(w: World, id: nat)
    requires Enabled(w, Report(id))
    ensures Apply(w, Report(id)).tunnels[id].stage == Asking(Second(w.tunnels[id].stage.token, |w.postponed|))
  {
  }

  /** The token a tunnel has reported or is about to, in its round. */
  function Refused(stage: Stage): Option<string> {
    match stage
    case Asking(Second(refused, _)) => Some(refused)
    case Renewing(Second(refused, _), _) => Some(refused)
    case Connecting(Second(refused, _), _, _) => Some(refused)
    case Reporting(token) => Some(token)
    case _ => None
  }

  lemma RefusedAfterReply(w: World, task: Task, response: Response, id: nat)
    requires Enabled(w, Receive(task, response)) && id in Apply(w, Receive(task, response)).tunnels
    requires Refused(Apply(w, Receive(task, response)).tunnels[id].stage).Some?
    ensures id in w.tunnels
    ensures Refused(Apply(w, Receive(task, response)).tunnels[id].stage) == Refused(w.tunnels[id].stage)
  {
  }

  lemma RefusedStays(w: World, step: Step, id: nat)
    requires Enabled(w, step) && id in Apply(w, step).tunnels && Refused(Apply(w, step).tunnels[id].stage).Some?
    ensures id in w.tunnels
    ensures Refused(Apply(w, step).tunnels[id].stage) == Refused(w.tunnels[id].stage)
            || (step == Connect(id, Unauthorized) && w.tunnels[id].stage.round == First
                && Refused(Apply(w, step).tunnels[id].stage) == Some(w.tunnels[id].stage.token))
  {
    if step.Receive? {
      RefusedAfterReply(w, step.task, step.response, id);
    } else {
      RefusedOtherwise(w, step, id);
    }
  }

  lemma RefusedOtherwise(w: World, step: Step, id: nat)
    requires Enabled(w, step) && !step.Receive?
    requires id in Apply(w, step).tunnels && Refused(Apply(w, step).tunnels[id].stage).Some?
    ensures id in w.tunnels
    ensures Refused(Apply(w, step).tunnels[id].stage) == Refused(w.tunnels[id].stage)
            || (step == Connect(id, Unauthorized) && w.tunnels[id].stage.round == First
                && Refused(Apply(w, step).tunnels[id].stage) == Some(w.tunnels[id].stage.token))
  {
  }

  /** A tunnel asks for a second token only after the gateway refused its first with 401. */
  lemma {:induction false} SecondOnlyAfter401(worlds: seq<World>, steps: seq<Step>, i: nat, id: nat) returns (k: nat)
    requires Run(worlds, steps) && i < |worlds| && id in worlds[i].tunnels
    requires Refused(worlds[i].tunnels[id].stage).Some?
    ensures k < i && steps[k] == Connect(id, Unauthorized)
    ensures id in worlds[k].tunnels && worlds[k].tunnels[id].stage.Connecting?
    ensures worlds[k].tunnels[id].stage.round == First
    ensures Refused(worlds[i].tunnels[id].stage) == Some(worlds[k].tunnels[id].stage.token)
  {
    assert i > 0;
    assert Stepped(worlds, steps, i - 1);
    RefusedStays(worlds[i - 1], steps[i - 1], id);
    if Refused(worlds[i].tunnels[id].stage) == Refused(worlds[i - 1].tunnels[id].stage) {
      k := SecondOnlyAfter401(worlds, steps, i - 1, id);
    } else {
      k := i - 1;
    }
  }

  // ---- Staleness ----

  /** Every token handed to a tunnel was obtained in that very call or runs out less than 5 s
      before; and a token is never marked for renewal later than 5 s after it runs out, unless that
      moment is past already. */
  lemma StalenessIsBounded(worlds: seq<World>, steps: seq<Step>, i: nat)
    requires Run(worlds, steps) && i < |worlds|
    ensures var w := worlds[i];
            && (forall h <- w.handed :: h.obtained || h.at < h.expires + RENEW_RETRY_DELAY)
            && w.state.Some?
            && w.state.value.renewAt <= Max(w.clock, w.state.value.accessExpires + RENEW_RETRY_DELAY)
  {
    InvAlways(worlds, steps, i);
    assert forall h <- worlds[i].handed :: HandedOk(h, worlds[i].clock);
  }

  /** In every run a token that had run out when it was handed out had no lifetime at all, or had been
      put off by a tunnel whose renewal failed. */
  lemma ExpiredWerePutOff(worlds: seq<World>, steps: seq<Step>, i: nat)
    requires Run(worlds, steps) && i < |worlds|
    ensures forall h <- worlds[i].handed | h.at >= h.expires ::
              if h.obtained then h.at == h.expires else h.token in worlds[i].postponed
  {
    InvAlways(worlds, steps, i);
    assert forall h <- worlds[i].handed :: StaleOk(h, worlds[i].postponed);
  }

  /** When the call is over: the reading of the last reply, or the one it started with. */
  function ReturnsAt(state: Option<Tokens>, now: nat, refresh: Reply, login: Reply): nat {
    if Due(state, now) then RenewalOf(state, now, refresh, login).at else now
  }

  /** A token handed out has run out exactly when the call found one that is past its end and still
      postponed, or obtained one with no lifetime at all. */
  lemma ExpiredExactlyWhen(state: Option<Tokens>, now: nat, refresh: Reply, login: Reply)
    requires state.Some? && Authorized(state, now, refresh, login).1.Some?
    ensures Authorized(state, now, refresh, login).0.Some?
    ensures ReturnsAt(state, now, refresh, login) >= Authorized(state, now, refresh, login).0.value.accessExpires
       <==> if Due(state, now) then
              var reply := if RefreshUsable(state, now) && Judge(refresh).Fresh? then refresh else login;
              RenewalOf(state, now, refresh, login).outcome.Renewed? && reply.response.body.value.expiresIn == 0
            else
              state.value.accessExpires <= now
  {
  }

  lemma Extend(worlds: seq<World>, steps: seq<Step>, step: Step)
    requires Run(worlds, steps) && Enabled(worlds[|steps|], step)
    ensures Run(worlds + [Apply(worlds[|steps|], step)], steps + [step])
  {
    var worlds', steps' := worlds + [Apply(worlds[|steps|], step)], steps + [step];
    forall i: nat | i < |steps'| ensures Stepped(worlds', steps', i) {
      assert i < |steps| ==> Stepped(worlds, steps, i);
    }
  }

  const FIRST_TOKENS := Tokens("A", "R", 8 * SECOND, 10 * SECOND, 3600 * SECOND)

  /** A session whose first access token lives 10 s. */
  function ShortLived(): World {
    World(0, None, Some(FIRST_TOKENS), map[], Looping(0, None), true,
          [Issue(0, FIRST_TOKENS, None)], [], {}, [], [], [], [], 0)
  }

  lemma ShortLivedStarts()
    ensures Init(ShortLived())
  {
    var response := TokenResponse("A", 10, "R", 3600);
    assert Printable("A") && Printable("R");
    assert IntoTokens(response, 0) == Some(FIRST_TOKENS);
  }

  /** At 9 s a tunnel finds the token due; the router does not answer, so the token is kept until 14 s. */
  lemma KeptAfterFailure() returns (worlds: seq<World>, steps: seq<Step>)
    ensures Run(worlds, steps)
    ensures var w := worlds[|steps|];
            && w.clock == 9 * SECOND && w.lock == None && w.outside && 1 !in w.tunnels
            && w.state == Some(FIRST_TOKENS.(renewAt := 14 * SECOND))
  {
    ShortLivedStarts();
    worlds, steps := [ShortLived()], [];
    worlds, steps := Continued(worlds, steps, Tick(9 * SECOND));
    worlds, steps := Continued(worlds, steps, Open(0));
    worlds, steps := Continued(worlds, steps, Ask(0));
    assert worlds[|steps|].tunnels[0].stage == Renewing(First, AwaitingRefresh(Some(FIRST_TOKENS), 9 * SECOND));
    worlds, steps := Continued(worlds, steps, Receive(Tunnel(0), NoAnswer));
  }

  /** It does happen: a run in which a tunnel is handed a token 2 s after it ran out. */
  lemma ExpiredTokenIsHandedOut() returns (worlds: seq<World>, steps: seq<Step>)
    ensures Run(worlds, steps)
    ensures exists h <- worlds[|steps|].handed :: !h.obtained && h.at == h.expires + 2 * SECOND
  {
    worlds, steps := KeptAfterFailure();
    worlds, steps := Continued(worlds, steps, Tick(3 * SECOND));
    worlds, steps := Continued(worlds, steps, Open(1));
    worlds, steps := Continued(worlds, steps, Ask(1));
    assert Handover("A", 12 * SECOND, false, 10 * SECOND) in worlds[|steps|].handed;
  }

  lemma Continued(worlds: seq<World>, steps: seq<Step>, step: Step) returns (worlds': seq<World>, steps': seq<Step>)
    requires Run(worlds, steps) && Enabled(worlds[|steps|], step)
    ensures Run(worlds', steps') && worlds'[|steps'|] == Apply(worlds[|steps|], step)
  {
    Extend(worlds, steps, step);
    worlds', steps' := worlds + [Apply(worlds[|steps|], step)], steps + [step];
  }

  // ---- Accounting ----

  /** An access token is replaced at most once, and only when 80% of its lifetime is over or after
      it was itself reported as refused. */
  lemma ReplacedOnceAndNotEarly(worlds: seq<World>, steps: seq<Step>, i: nat)
    requires Run(worlds, steps) && i < |worlds|
    ensures var issues := worlds[i].issues;
            && Distinct(issues)
            && forall k | 0 <= k < |issues| - 1 ::
                 || 5 * (issues[k + 1].at - issues[k].at) >= 4 * (issues[k].tokens.accessExpires - issues[k].at)
                 || issues[k].tokens.access in worlds[i].reported
  {
    InvAlways(worlds, steps, i);
    var issues := worlds[i].issues;
    forall k | 0 <= k < |issues| - 1
      ensures || 5 * (issues[k + 1].at - issues[k].at) >= 4 * (issues[k].tokens.accessExpires - issues[k].at)
              || issues[k].tokens.access in worlds[i].reported
    {
      assert WellTimed(issues[k]);
    }
  }

  predicate Early(issues: seq<Issue>, k: nat) {
    k + 1 < |issues| && issues[k + 1].at < issues[k].tokens.renewAt
  }

  function EarlyBefore(issues: seq<Issue>, n: nat): nat {
    if n == 0 then 0 else EarlyBefore(issues, n - 1) + if Early(issues, n - 1) then 1 else 0
  }

  lemma {:induction false} EarlyTokens(issues: seq<Issue>, reported: set<string>, n: nat) returns (tokens: set<string>)
    requires Paced(issues, reported) && Distinct(issues) && n <= |issues|
    ensures tokens <= reported && |tokens| == EarlyBefore(issues, n)
    ensures forall t <- tokens :: exists k :: 0 <= k < n && issues[k].tokens.access == t
  {
    if n == 0 {
      tokens := {};
    } else {
      tokens := EarlyTokens(issues, reported, n - 1);
      if Early(issues, n - 1) {
        tokens := tokens + {issues[n - 1].tokens.access};
      }
    }
  }

  lemma SubsetCount<T>(a: set<T>, b: set<T>)
    requires a <= b
    ensures |a| <= |b|
  {
    assert |b| == |a| + |b - a| by {
      assert b == a + (b - a);
    }
  }

  /** Renewals before 80% of a lifetime is over are at most as many as the tokens reported as
      refused, however many tunnels reported each. */
  lemma ReportsCauseOneRenewalEach(worlds: seq<World>, steps: seq<Step>, i: nat)
    requires Run(worlds, steps) && i < |worlds|
    ensures EarlyBefore(worlds[i].issues, |worlds[i].issues|) <= |worlds[i].reported|
  {
    InvAlways(worlds, steps, i);
    var tokens := EarlyTokens(worlds[i].issues, worlds[i].reported, |worlds[i].issues|);
    SubsetCount(tokens, worlds[i].reported);
  }

  lemma {:induction false} Spread(issues: seq<Issue>, reported: set<string>, a: nat, b: nat, lifetime: nat)
    requires Paced(issues, reported) && a <= b < |issues|
    requires forall k | a <= k < b :: WellTimed(issues[k]) && issues[k].tokens.access !in reported
    requires forall k | a <= k < b :: issues[k].tokens.accessExpires - issues[k].at >= lifetime
    ensures 5 * (issues[b].at - issues[a].at) >= 4 * lifetime * (b - a)
  {
    if a < b {
      Spread(issues, reported, a, b - 1, lifetime);
      assert WellTimed(issues[b - 1]);
      assert 4 * lifetime * (b - a) == 4 * lifetime * (b - 1 - a) + 4 * lifetime;
    }
  }

  /** With lifetimes of at least `lifetime` and none of their tokens reported, the answers `a` to `b`
      that fall into `window` number at most `window / (0.8 lifetime) + 1`. */
  lemma RenewalsInAWindow(worlds: seq<World>, steps: seq<Step>, i: nat, a: nat, b: nat, lifetime: nat, window: nat)
    requires Run(worlds, steps) && i < |worlds| && a <= b < |worlds[i].issues|
    requires worlds[i].issues[b].at - worlds[i].issues[a].at <= window
    requires forall k | a <= k < b :: worlds[i].issues[k].tokens.access !in worlds[i].reported
    requires forall k | a <= k < b ::
               worlds[i].issues[k].tokens.accessExpires - worlds[i].issues[k].at >= lifetime
    ensures 4 * lifetime * (b - a) <= 5 * window
  {
    InvAlways(worlds, steps, i);
    Spread(worlds[i].issues, worlds[i].reported, a, b, lifetime);
  }

  // ---- Back-off ----

  /** Background attempts start at least 1 s apart, and one that follows `k` failures in a row starts
      at least `min(300, 5 * 2^(k-1))` seconds after the last of them. */
  lemma BackgroundAttemptsKeepTheirDistance(worlds: seq<World>, steps: seq<Step>, i: nat)
    requires Run(worlds, steps) && i < |worlds|
    ensures var starts := worlds[i].starts;
            && (forall a, b | 0 <= a <= b < |starts| :: starts[b].at >= starts[a].at + (b - a) * SECOND)
            && (forall s <- starts | s.row != [] ::
                  s.at >= s.row[|s.row| - 1] + Min(300 * SECOND, 5 * SECOND * Pow2(|s.row| - 1)))
  {
    InvAlways(worlds, steps, i);
    var starts := worlds[i].starts;
    forall a, b | 0 <= a <= b < |starts| ensures starts[b].at >= starts[a].at + (b - a) * SECOND {
      StartsApart(starts, a, b);
    }
  }

  lemma {:induction false} StartsApart(starts: seq<Start>, a: nat, b: nat)
    requires StartsOk(starts) && a <= b < |starts|
    ensures starts[b].at >= starts[a].at + (b - a) * SECOND
  {
    if a < b {
      StartsApart(starts, a, b - 1);
    }
  }

  lemma DelaysUpToTheCap()
    ensures NamedDelay(0) == 5 * SECOND && NamedDelay(1) == 10 * SECOND && NamedDelay(2) == 20 * SECOND
    ensures NamedDelay(3) == 40 * SECOND && NamedDelay(4) == 80 * SECOND && NamedDelay(5) == 160 * SECOND
  {
    assert Pow2(3) == 8;
    assert Pow2(5) == 32;
  }

  lemma {:induction false} RowSpread(row: seq<nat>, n: nat)
    requires RowOk(row) && 7 <= n <= |row|
    ensures row[n - 1] >= row[0] + 315 * SECOND + 300 * SECOND * (n - 7)
  {
    if n == 7 {
      DelaysUpToTheCap();
      assert row[1] >= row[0] + NamedDelay(0);
      assert row[2] >= row[1] + NamedDelay(1);
      assert row[3] >= row[2] + NamedDelay(2);
      assert row[4] >= row[3] + NamedDelay(3);
      assert row[5] >= row[4] + NamedDelay(4);
      assert row[6] >= row[5] + NamedDelay(5);
    } else {
      RowSpread(row, n - 1);
      assert row[n - 1] >= row[n - 2] + NamedDelay(n - 2);
      BackoffIsCapped(n - 2);
    }
  }

  /** The `n`-th failure in a row comes at least 315 + 300 (n - 7) seconds after the first. */
  lemma FailuresInARowSpread(worlds: seq<World>, steps: seq<Step>, i: nat, n: nat)
    requires Run(worlds, steps) && i < |worlds| && 7 <= n <= |worlds[i].row|
    ensures worlds[i].row[n - 1] >= worlds[i].row[0] + (315 + 300 * (n - 7)) * SECOND
  {
    InvAlways(worlds, steps, i);
    RowSpread(worlds[i].row, n);
  }

  // ---- The end of the session ----

  /** The token requests the background task may still send when it alone holds the session. */
  function RequestsLeft(w: World): nat {
    match w.background
    case Waking(_, _) => 2
    case Attempting(_, AwaitingRefresh(_, _)) => 1
    case _ => 0
  }

  predicate OrphanInv(w: World) {
    !w.outside ==> forall id <- w.tunnels :: !Active(w.tunnels[id].stage)
  }

  lemma OrphanReply(w: World, task: Task, response: Response)
    requires CoreInv(w) && OrphanInv(w) && Enabled(w, Receive(task, response))
    ensures OrphanInv(Apply(w, Receive(task, response)))
    ensures !w.outside ==>
              var w' := Apply(w, Receive(task, response));
              !w'.outside && w'.requests + RequestsLeft(w') <= w.requests + RequestsLeft(w)
  {
    if !w.outside {
      assert task.Background?;
    }
  }

  lemma OrphanOther(w: World, step: Step)
    requires OrphanInv(w) && Enabled(w, step) && !step.Receive?
    ensures OrphanInv(Apply(w, step))
    ensures !w.outside ==>
              var w' := Apply(w, step);
              !w'.outside && w'.requests + RequestsLeft(w') <= w.requests + RequestsLeft(w)
  {
  }

  lemma OrphanStep(w: World, step: Step)
    requires CoreInv(w) && OrphanInv(w) && Enabled(w, step)
    ensures OrphanInv(Apply(w, step))
    ensures !w.outside ==>
              var w' := Apply(w, step);
              !w'.outside && w'.requests + RequestsLeft(w') <= w.requests + RequestsLeft(w)
  {
    match step
    case Receive(task, response) => OrphanReply(w, task, response);
    case _ => OrphanOther(w, step);
  }

  /** Once nothing but the background task holds the session, at most the attempt it is then making
      is finished: no further token request follows, now or later. */
  lemma {:induction false} NothingAfterTheLastHandle(worlds: seq<World>, steps: seq<Step>, i: nat, j: nat)
    requires Run(worlds, steps) && i <= j < |worlds| && !worlds[i].outside
    ensures !worlds[j].outside
    ensures worlds[j].requests + RequestsLeft(worlds[j]) <= worlds[i].requests + RequestsLeft(worlds[i])
  {
    if i < j {
      NothingAfterTheLastHandle(worlds, steps, i, j - 1);
      OrphanAlways(worlds, steps, j - 1);
      InvAlways(worlds, steps, j - 1);
      assert Stepped(worlds, steps, j - 1);
      OrphanStep(worlds[j - 1], steps[j - 1]);
    }
  }

  lemma {:induction false} OrphanAlways(worlds: seq<World>, steps: seq<Step>, i: nat)
    requires Run(worlds, steps) && i < |worlds|
    ensures OrphanInv(worlds[i])
  {
    if i > 0 {
      OrphanAlways(worlds, steps, i - 1);
      InvAlways(worlds, steps, i - 1);
      assert Stepped(worlds, steps, i - 1);
      OrphanStep(worlds[i - 1], steps[i - 1]);
    }
  }
}

/** When tokens are renewed, what tunnels are handed, and when the background task tries. */
module SessionTiming {
  import opened Wrappers
  import opened Session
  import opened SessionProtocol
  import opened SessionInvariants

  ghost predicate CoreInv(w: World) {
    LockInv(w) && PendingInv(w) && StateInv(w) && PresentedInv(w)
  }

  lemma CoreKept(w: World, step: Step)
    requires CoreInv(w) && Enabled(w, step)
    ensures CoreInv(Apply(w, step))
  {
    LockKept(w, step);
    PendingKept(w, step);
    StateKept(w, step);
    PresentedKept(w, step);
  }

  // ---- Staleness and accounting ----

  /** Each answer but the last was replaced only when 80% of its lifetime was over, or after that
      very access token had been reported as refused. */
  predicate Paced(issues: seq<Issue>, reported: set<string>) {
    forall i | 0 <= i < |issues| - 1 ::
      issues[i + 1].at >= issues[i].tokens.renewAt || issues[i].tokens.access in reported
  }

  predicate HandedOk(handover: Handover, clock: nat) {
    && handover.at <= clock
    && (handover.obtained || handover.at < handover.expires + RENEW_RETRY_DELAY)
  }

  predicate TimingOk(clock: nat, tokens: Tokens, issues: seq<Issue>, reported: set<string>) {
    && issues != []
    && tokens.renewAt <= Max(clock, tokens.accessExpires + RENEW_RETRY_DELAY)
    && (tokens.renewAt >= Last(issues).tokens.renewAt || tokens.access in reported)
    && Paced(issues, reported)
  }

  predicate TimingInv(w: World) {
    && w.state.Some?
    && TimingOk(w.clock, w.state.value, w.issues, w.reported)
    && forall h <- w.handed :: HandedOk(h, w.clock)
  }

  lemma IssuePaced(issues: seq<Issue>, reported: set<string>, issue: Issue)
    requires issues != [] && Paced(issues, reported)
    requires issue.at >= Last(issues).tokens.renewAt || Last(issues).tokens.access in reported
    ensures Paced(issues + [issue], reported)
  {
    var issues' := issues + [issue];
    forall i | 0 <= i < |issues'| - 1
      ensures issues'[i + 1].at >= issues'[i].tokens.renewAt || issues'[i].tokens.access in reported
    {
      assert issues'[i] == issues[i];
    }
  }

  /** Reporting tokens, and the passing of time, keep the timing. */
  lemma TimingStays(clock: nat, tokens: Tokens, issues: seq<Issue>, reported: set<string>,
                    clock': nat, reported': set<string>)
    requires TimingOk(clock, tokens, issues, reported) && clock <= clock' && reported <= reported'
    ensures TimingOk(clock', tokens, issues, reported')
    ensures tokens.access in reported' ==> TimingOk(clock', tokens.(renewAt := clock'), issues, reported')
  {
  }

  /** Values alone: the answer that brings new tokens, and the one that only puts the renewal off. */
  lemma TimingRenewed(clock: nat, tokens: Tokens, issues: seq<Issue>, reported: set<string>, issue: Issue)
    requires TimingOk(clock, tokens, issues, reported) && Last(issues).tokens.access == tokens.access
    requires clock >= tokens.renewAt && issue.at == clock && WellTimed(issue)
    ensures TimingOk(clock, issue.tokens, issues + [issue], reported)
  {
    IssuePaced(issues, reported, issue);
  }

  lemma TimingPutOff(clock: nat, tokens: Tokens, issues: seq<Issue>, reported: set<string>, later: nat)
    requires TimingOk(clock, tokens, issues, reported) && tokens.renewAt <= later
    requires later <= Max(clock, tokens.accessExpires + RENEW_RETRY_DELAY)
    ensures TimingOk(clock, tokens.(renewAt := later), issues, reported)
  {
  }

  /** A reply brings new tokens for those that were due, or may only put their renewal off, by no more
      than 5 s past their end. */
  predicate RenewsOrPutsOff(w: World, w': World) {
    && w.state.Some? && w'.state.Some? && w'.clock == w.clock && w'.reported == w.reported
    && (|| (w'.state == w.state && w'.issues == w.issues)
        || (&& w'.issues == w.issues && w.state.value.renewAt <= w'.state.value.renewAt
            && w'.state.value == w.state.value.(renewAt := w'.state.value.renewAt)
            && w'.state.value.renewAt <= Max(w.clock, w.state.value.accessExpires + RENEW_RETRY_DELAY))
        || (&& w'.issues != [] && w'.issues == w.issues + [Last(w'.issues)]
            && Last(w'.issues).tokens == w'.state.value && Last(w'.issues).at == w.clock && WellTimed(Last(w'.issues))
            && w.clock >= w.state.value.renewAt))
  }

  lemma TunnelRenewsOrPutsOff(w: World, id: nat, response: Response)
    requires CoreInv(w) && Enabled(w, Receive(Tunnel(id), response))
    ensures RenewsOrPutsOff(w, Apply(w, Receive(Tunnel(id), response)))
  {
    TunnelAnswered(w, id, response);
    assert PendingOk(w, PendingOf(w, Tunnel(id)));
  }

  lemma BackgroundRenews(w: World, response: Response)
    requires CoreInv(w) && Enabled(w, Receive(Task.Background, response))
    ensures RenewsOrPutsOff(w, Apply(w, Receive(Task.Background, response)))
  {
    BackgroundAnswered(w, response);
    assert PendingOk(w, PendingOf(w, Task.Background));
  }

  lemma TimingFollows(w: World, w': World)
    requires StateInv(w) && TimingInv(w) && RenewsOrPutsOff(w, w')
    ensures TimingOk(w'.clock, w'.state.value, w'.issues, w'.reported)
  {
    if w'.issues != w.issues {
      TimingRenewed(w.clock, w.state.value, w.issues, w.reported, Last(w'.issues));
    } else if w'.state != w.state {
      TimingPutOff(w.clock, w.state.value, w.issues, w.reported, w'.state.value.renewAt);
    }
  }

  lemma SharedTiming(w: World, task: Task, response: Response)
    requires CoreInv(w) && TimingInv(w) && Enabled(w, Receive(task, response))
    ensures var w' := Apply(w, Receive(task, response));
            w'.state.Some? && TimingOk(w'.clock, w'.state.value, w'.issues, w'.reported)
  {
    match task {
      case Tunnel(id) => TunnelRenewsOrPutsOff(w, id, response);
      case Background => BackgroundRenews(w, response);
    }
    TimingFollows(w, Apply(w, Receive(task, response)));
  }

  predicate HandedMore(w: World, w': World) {
    || w'.handed == w.handed
    || (&& |w'.handed| == |w.handed| + 1 && w'.handed[..|w.handed|] == w.handed
        && HandedOk(w'.handed[|w.handed|], w.clock))
  }

  lemma HandedByAsk(w: World, id: nat)
    requires CoreInv(w) && TimingInv(w) && Enabled(w, Ask(id))
    ensures HandedMore(w, Apply(w, Ask(id)))
  {
  }

  lemma HandedByReceive(w: World, task: Task, response: Response)
    requires CoreInv(w) && Enabled(w, Receive(task, response))
    ensures HandedMore(w, Apply(w, Receive(task, response)))
  {
    ReceiveEffect(w, task, response);
  }

  lemma HandedStays(w: World, w': World)
    requires HandedMore(w, w') && w.clock <= w'.clock
    requires forall h <- w.handed :: HandedOk(h, w.clock)
    ensures forall h <- w'.handed :: HandedOk(h, w'.clock)
  {
    forall h <- w'.handed ensures HandedOk(h, w'.clock) {
      assert h in w.handed || h == w'.handed[|w.handed|];
    }
  }

  lemma TimingAfterReply(w: World, task: Task, response: Response)
    requires CoreInv(w) && TimingInv(w) && Enabled(w, Receive(task, response))
    ensures TimingInv(Apply(w, Receive(task, response)))
  {
    var w' := Apply(w, Receive(task, response));
    SharedTiming(w, task, response);
    HandedByReceive(w, task, response);
    HandedStays(w, w');
  }

  lemma TimingAfterAsk(w: World, id: nat)
    requires CoreInv(w) && TimingInv(w) && Enabled(w, Ask(id))
    ensures TimingInv(Apply(w, Ask(id)))
  {
    HandedByAsk(w, id);
    HandedStays(w, Apply(w, Ask(id)));
  }

  lemma TimingAfterReport(w: World, id: nat)
    requires CoreInv(w) && TimingInv(w) && Enabled(w, Report(id))
    ensures TimingInv(Apply(w, Report(id)))
  {
    var w' := Apply(w, Report(id));
    RejectMatchesItsOwnHeader(w.state, w.tunnels[id].stage.token, w.clock);
    TimingStays(w.clock, w.state.value, w.issues, w.reported, w'.clock, w'.reported);
  }

  lemma TimingAfterTick(w: World, elapsed: nat)
    requires TimingInv(w)
    ensures TimingInv(Apply(w, Tick(elapsed)))
  {
    var w' := Apply(w, Tick(elapsed));
    TimingStays(w.clock, w.state.value, w.issues, w.reported, w'.clock, w'.reported);
    HandedStays(w, w');
  }

  /** The other steps touch nothing that timing depends on. */
  lemma TimingUntouched(w: World, step: Step)
    requires TimingInv(w) && Enabled(w, step)
    requires !step.Receive? && !step.Ask? && !step.Report? && !step.Tick?
    ensures TimingInv(Apply(w, step))
  {
  }

  lemma TimingKept(w: World, step: Step)
    requires CoreInv(w) && TimingInv(w) && Enabled(w, step)
    ensures TimingInv(Apply(w, step))
  {
    match step {
      case Receive(task, response) => TimingAfterReply(w, task, response);
      case Ask(id) => TimingAfterAsk(w, id);
      case Report(id) => TimingAfterReport(w, id);
      case Tick(elapsed) => TimingAfterTick(w, elapsed);
      case _ => TimingUntouched(w, step);
    }
  }

  // ---- Tokens that have run out ----

  /** A token that had run out when it was handed out had been put off, or had no lifetime at all. */
  predicate StaleOk(h: Handover, postponed: seq<string>) {
    h.at >= h.expires ==> if h.obtained then h.at == h.expires else h.token in postponed
  }

  /** A token that is not due though it has run out, or will have when it is, was put off. */
  predicate PutOffOk(clock: nat, tokens: Tokens, postponed: seq<string>) {
    tokens.renewAt > Max(clock, tokens.accessExpires) ==> tokens.access in postponed
  }

  predicate StaleInv(w: World) {
    && w.state.Some?
    && PutOffOk(w.clock, w.state.value, w.postponed)
    && forall h <- w.handed :: StaleOk(h, w.postponed)
  }

  lemma MoreHanded(handed: seq<Handover>, postponed: seq<string>, handed': seq<Handover>, postponed': seq<string>)
    requires forall h <- handed :: StaleOk(h, postponed)
    requires postponed <= postponed'
    requires handed' == handed
             || (|handed'| == |handed| + 1 && handed'[..|handed|] == handed && StaleOk(handed'[|handed|], postponed'))
    ensures forall h <- handed' :: StaleOk(h, postponed')
  {
    forall h <- handed' ensures StaleOk(h, postponed') {
      assert h in handed || h == handed'[|handed|];
      assert forall token | token in postponed :: token in postponed';
    }
  }

  lemma StaleAfterAsk(w: World, id: nat)
    requires StaleInv(w) && Enabled(w, Ask(id))
    ensures StaleInv(Apply(w, Ask(id)))
  {
    var w' := Apply(w, Ask(id));
    MoreHanded(w.handed, w.postponed, w'.handed, w'.postponed);
  }

  lemma StaleAfterTunnel(w: World, id: nat, response: Response)
    requires CoreInv(w) && StaleInv(w) && Enabled(w, Receive(Tunnel(id), response))
    ensures StaleInv(Apply(w, Receive(Tunnel(id), response)))
  {
    var w' := Apply(w, Receive(Tunnel(id), response));
    TunnelAnswered(w, id, response);
    assert w'.postponed == w.postponed || w'.postponed == w.postponed + [w.state.value.access];
    if w'.postponed != w.postponed {
      assert w'.postponed[|w.postponed|] == w.state.value.access;
    }
    MoreHanded(w.handed, w.postponed, w'.handed, w'.postponed);
  }

  lemma StaleAfterBackground(w: World, response: Response)
    requires CoreInv(w) && StaleInv(w) && Enabled(w, Receive(Task.Background, response))
    ensures StaleInv(Apply(w, Receive(Task.Background, response)))
  {
    BackgroundAnswered(w, response);
  }

  lemma StaleAfterReport(w: World, id: nat)
    requires StaleInv(w) && Enabled(w, Report(id))
    ensures StaleInv(Apply(w, Report(id)))
  {
    RejectMatchesItsOwnHeader(w.state, w.tunnels[id].stage.token, w.clock);
  }

  lemma StaleUntouched(w: World, step: Step)
    requires StaleInv(w) && Enabled(w, step) && !step.Receive? && !step.Ask? && !step.Report?
    ensures StaleInv(Apply(w, step))
  {
  }

  lemma StaleKept(w: World, step: Step)
    requires CoreInv(w) && StaleInv(w) && Enabled(w, step)
    ensures StaleInv(Apply(w, step))
  {
    match step {
      case Receive(Tunnel(id), response) => StaleAfterTunnel(w, id, response);
      case Receive(Background, response) => StaleAfterBackground(w, response);
      case Ask(id) => StaleAfterAsk(w, id);
      case Report(id) => StaleAfterReport(w, id);
      case _ => StaleUntouched(w, step);
    }
  }

  // ---- The one retry of a tunnel ----

  ghost predicate Issued(issues: seq<Issue>, token: string) {
    exists i :: 0 <= i < |issues| && issues[i].tokens.access == token
  }

  predicate Postponed(postponed: seq<string>, from: nat, to: nat, token: string) {
    exists k :: from <= k < to <= |postponed| && postponed[k] == token
  }

  /** While a tunnel is to ask for a token in place of the refused one: that one is gone, or due, or
      a renewal of it failed since it was reported. */
  ghost predicate RoundOk(w: World, round: Round) {
    round.Second? ==>
      && Issued(w.issues, round.refused)
      && round.postponedBefore <= |w.postponed|
      && w.state.Some?
      && (|| w.state.value.access != round.refused
          || w.state.value.renewAt <= w.clock
          || Postponed(w.postponed, round.postponedBefore, |w.postponed|, round.refused))
  }

  function AttemptsBefore(round: Round): nat {
    if round.First? then 0 else 1
  }

  ghost predicate TunnelOk(w: World, tunnel: TunnelTask) {
    match tunnel.stage
    case Asking(round) => tunnel.attempts == AttemptsBefore(round) && RoundOk(w, round)
    case Renewing(round, _) => tunnel.attempts == AttemptsBefore(round) && RoundOk(w, round)
    case Connecting(round, token, then_) =>
      && tunnel.attempts == AttemptsBefore(round) + 1
      && Issued(w.issues, token)
      && then_ <= |w.postponed|
      && (round.Second? && token == round.refused ==>
            Postponed(w.postponed, round.postponedBefore, then_, token))
    case Reporting(token) => tunnel.attempts == 1 && Issued(w.issues, token)
    case Connected => tunnel.attempts <= 2
    case Ended => tunnel.attempts <= 2
  }

  ghost predicate TunnelInv(w: World) {
    forall id <- w.tunnels :: TunnelOk(w, w.tunnels[id])
  }

  lemma IssuedStays(before: seq<Issue>, after: seq<Issue>, token: string)
    requires before <= after && Issued(before, token)
    ensures Issued(after, token)
  {
    var i :| 0 <= i < |before| && before[i].tokens.access == token;
    assert after[i] == before[i];
  }

  lemma PostponedStays(before: seq<string>, after: seq<string>, from: nat, to: nat, token: string)
    requires before <= after && Postponed(before, from, to, token)
    ensures forall to' | to <= to' <= |after| :: Postponed(after, from, to', token)
  {
    var k :| from <= k < to <= |before| && before[k] == token;
    assert after[k] == before[k];
  }

  /** What other tasks do to the shared state does not harm a tunnel. */
  lemma OthersAreHarmless(w: World, step: Step, tunnel: TunnelTask)
    requires CoreInv(w) && Enabled(w, step) && TunnelOk(w, tunnel)
    ensures TunnelOk(Apply(w, step), tunnel)
  {
    var w' := Apply(w, step);
    SharedState(w, step);
    match tunnel.stage {
      case Asking(Second(refused, from)) => RoundStays(w, w', tunnel.stage.round);
      case Renewing(Second(refused, from), _) => RoundStays(w, w', tunnel.stage.round);
      case Connecting(round, token, then_) =>
        IssuedStays(w.issues, w'.issues, token);
        if round.Second? && token == round.refused {
          PostponedStays(w.postponed, w'.postponed, round.postponedBefore, then_, token);
        }
      case Reporting(token) => IssuedStays(w.issues, w'.issues, token);
      case _ =>
    }
  }

  /** How a step may change what tunnels share: time passes, new tokens come in, the current ones
      become due, or they are postponed, which is then on record. */
  ghost predicate Evolves(w: World, w': World) {
    && w.clock <= w'.clock && w.issues <= w'.issues && w.postponed <= w'.postponed
    && w.state.Some? && w'.state.Some?
    && (|| w'.state.value.renewAt <= w'.clock
        || w'.state == w.state
        || (w'.state.value.access == w.state.value.access && w'.postponed == w.postponed + [w.state.value.access])
        || NewTokens(w.issues, w'.state.value))
  }

  /** A tunnel whose renewal failed puts the next one off, which is then on record. */
  lemma SharedAfterTunnel(w: World, id: nat, response: Response)
    requires CoreInv(w) && Enabled(w, Receive(Tunnel(id), response))
    ensures Evolves(w, Apply(w, Receive(Tunnel(id), response)))
  {
    TunnelAnswered(w, id, response);
  }

  lemma SharedAfterBackground(w: World, response: Response)
    requires CoreInv(w) && Enabled(w, Receive(Task.Background, response))
    ensures Evolves(w, Apply(w, Receive(Task.Background, response)))
  {
    BackgroundAnswered(w, response);
  }

  lemma SharedAfterReport(w: World, id: nat)
    requires CoreInv(w) && Enabled(w, Report(id))
    ensures Evolves(w, Apply(w, Report(id)))
  {
    RejectMatchesItsOwnHeader(w.state, w.tunnels[id].stage.token, w.clock);
  }

  lemma SharedUntouched(w: World, step: Step)
    requires CoreInv(w) && Enabled(w, step) && !step.Receive? && !step.Report?
    ensures Evolves(w, Apply(w, step))
  {
  }

  lemma SharedState(w: World, step: Step)
    requires CoreInv(w) && Enabled(w, step)
    ensures Evolves(w, Apply(w, step))
  {
    match step {
      case Receive(Tunnel(id), response) => SharedAfterTunnel(w, id, response);
      case Receive(Background, response) => SharedAfterBackground(w, response);
      case Report(id) => SharedAfterReport(w, id);
      case _ => SharedUntouched(w, step);
    }
  }

  lemma RoundStays(w: World, w': World, round: Round)
    requires Evolves(w, w') && RoundOk(w, round)
    ensures RoundOk(w', round)
  {
    if round.Second? {
      IssuedStays(w.issues, w'.issues, round.refused);
      if Postponed(w.postponed, round.postponedBefore, |w.postponed|, round.refused) {
        PostponedStays(w.postponed, w'.postponed, round.postponedBefore, |w.postponed|, round.refused);
      } else if w'.postponed == w.postponed + [round.refused] {
        assert w'.postponed[|w.postponed|] == round.refused;
      }
    }
  }

  /** A connection attempt that ends changes nothing tunnels share. */
  lemma OwnConnect(w: World, id: nat, verdict: GatewayVerdict)
    requires Enabled(w, Connect(id, verdict)) && TunnelOk(w, w.tunnels[id])
    ensures var w' := Apply(w, Connect(id, verdict)); TunnelOk(w', w'.tunnels[id])
  {
  }

  /** The step a tunnel takes itself. */
  lemma OwnStep(w: World, step: Step, id: nat)
    requires CoreInv(w) && Enabled(w, step) && id in w.tunnels && TunnelOk(w, w.tunnels[id])
    requires step == Ask(id) || step == Report(id) || step == Cancel(id)
          || (step.Connect? && step.id == id) || (step.Receive? && step.task == Tunnel(id))
    ensures TunnelOk(Apply(w, step), Apply(w, step).tunnels[id])
  {
    match step {
      case Ask(_) => OwnAsk(w, id);
      case Receive(_, response) => OwnReceive(w, id, response);
      case Report(_) => OwnReport(w, id);
      case Connect(_, verdict) => OwnConnect(w, id, verdict);
      case Cancel(_) =>
    }
  }

  /** A tunnel's record changes in its own steps only. */
  lemma OthersKeepTheirStage(w: World, step: Step, id: nat)
    requires Enabled(w, step) && id in w.tunnels
    ensures id in Apply(w, step).tunnels
    ensures || Apply(w, step).tunnels[id] == w.tunnels[id]
            || step == Ask(id) || step == Report(id) || step == Cancel(id)
            || (step.Connect? && step.id == id) || (step.Receive? && step.task == Tunnel(id))
  {
  }

  lemma OwnAsk(w: World, id: nat)
    requires CoreInv(w) && Enabled(w, Ask(id)) && TunnelOk(w, w.tunnels[id])
    ensures TunnelOk(Apply(w, Ask(id)), Apply(w, Ask(id)).tunnels[id])
  {
    assert w.issues[|w.issues| - 1].tokens.access == w.state.value.access;
  }

  lemma OwnReport(w: World, id: nat)
    requires CoreInv(w) && Enabled(w, Report(id)) && TunnelOk(w, w.tunnels[id])
    ensures TunnelOk(Apply(w, Report(id)), Apply(w, Report(id)).tunnels[id])
  {
    RejectMatchesItsOwnHeader(w.state, w.tunnels[id].stage.token, w.clock);
  }

  /** What a tunnel's reply makes of its own stage. */
  lemma OwnReply(w: World, id: nat, response: Response)
    requires CoreInv(w) && Enabled(w, Receive(Tunnel(id), response))
    ensures var w' := Apply(w, Receive(Tunnel(id), response));
            var before, after := w.tunnels[id], w'.tunnels[id];
            && w'.state.Some? && w'.issues != [] && Last(w'.issues).tokens.access == w'.state.value.access
            && (|| (after.stage.Renewing? && after.stage.round == before.stage.round
                    && after.attempts == before.attempts)
                || (after.stage.Ended? && after.attempts == before.attempts)
                || (&& after == TunnelTask(Connecting(before.stage.round, w'.state.value.access, |w'.postponed|),
                                           before.attempts + 1)
                    && (|| NewTokens(w.issues, w'.state.value)
                        || w'.postponed == w.postponed + [w'.state.value.access])))
  {
    ReceiveEffect(w, Tunnel(id), response);
  }

  lemma OwnReceive(w: World, id: nat, response: Response)
    requires CoreInv(w) && Enabled(w, Receive(Tunnel(id), response)) && TunnelOk(w, w.tunnels[id])
    ensures var w' := Apply(w, Receive(Tunnel(id), response)); TunnelOk(w', w'.tunnels[id])
  {
    var w' := Apply(w, Receive(Tunnel(id), response));
    var round := w.tunnels[id].stage.round;
    OwnReply(w, id, response);
    SharedState(w, Receive(Tunnel(id), response));
    RoundStays(w, w', round);
    OwnStageOk(w, w', w.tunnels[id], w'.tunnels[id]);
  }

  lemma OwnStageOk(w: World, w': World, before: TunnelTask, after: TunnelTask)
    requires before.stage.Renewing? && TunnelOk(w, before) && RoundOk(w', before.stage.round)
    requires w'.state.Some? && w'.issues != [] && Last(w'.issues).tokens.access == w'.state.value.access
    requires || (after.stage.Renewing? && after.stage.round == before.stage.round && after.attempts == before.attempts)
             || (after.stage.Ended? && after.attempts == before.attempts)
             || (&& after == TunnelTask(Connecting(before.stage.round, w'.state.value.access, |w'.postponed|),
                                        before.attempts + 1)
                 && (|| NewTokens(w.issues, w'.state.value)
                     || w'.postponed == w.postponed + [w'.state.value.access]))
    ensures TunnelOk(w', after)
  {
    if after.stage.Connecting? {
      assert w'.issues[|w'.issues| - 1].tokens.access == w'.state.value.access;
      if w'.postponed == w.postponed + [w'.state.value.access] {
        assert w'.postponed[|w.postponed|] == w'.state.value.access;
      }
    }
  }

  lemma TunnelKept(w: World, step: Step, id: nat)
    requires CoreInv(w) && Enabled(w, step) && id in w.tunnels && TunnelOk(w, w.tunnels[id])
    ensures id in Apply(w, step).tunnels && TunnelOk(Apply(w, step), Apply(w, step).tunnels[id])
  {
    OthersKeepTheirStage(w, step, id);
    if Apply(w, step).tunnels[id] == w.tunnels[id] {
      OthersAreHarmless(w, step, w.tunnels[id]);
    } else {
      OwnStep(w, step, id);
    }
  }

  lemma TunnelOpened(w: World, step: Step, id: nat)
    requires Enabled(w, step) && id !in w.tunnels && id in Apply(w, step).tunnels
    ensures TunnelOk(Apply(w, step), Apply(w, step).tunnels[id])
  {
  }

  lemma TunnelsKept(w: World, step: Step)
    requires CoreInv(w) && TunnelInv(w) && Enabled(w, step)
    ensures TunnelInv(Apply(w, step))
  {
    var w' := Apply(w, step);
    forall id <- w'.tunnels ensures TunnelOk(w', w'.tunnels[id]) {
      if id in w.tunnels {
        TunnelKept(w, step, id);
      } else {
        TunnelOpened(w, step, id);
      }
    }
  }

  // ---- Back-off ----

  /** Failures in a row, each at least the documented delay after the one before. */
  predicate RowOk(row: seq<nat>) {
    forall k | 0 <= k < |row| - 1 :: row[k + 1] >= row[k] + NamedDelay(k)
  }

  predicate StartsOk(starts: seq<Start>) {
    && (forall i | 0 <= i < |starts| - 1 :: starts[i + 1].at >= starts[i].at + MIN_BACKGROUND_INTERVAL)
    && (forall s <- starts | s.row != [] :: RowOk(s.row) && s.at >= s.row[|s.row| - 1] + NamedDelay(|s.row| - 1))
  }

  predicate Counters(row: seq<nat>, clock: nat, failures: nat, retryAt: Option<nat>) {
    && failures == Min(|row|, U32_MAX)
    && (if row == [] then retryAt == None
        else retryAt == Some(row[|row| - 1] + NamedDelay(|row| - 1)) && row[|row| - 1] <= clock)
  }

  /** The next attempt may be made at `t`. */
  predicate MayStartAt(starts: seq<Start>, t: nat, retryAt: Option<nat>) {
    && (retryAt.Some? ==> t >= retryAt.value)
    && (starts != [] ==> t >= starts[|starts| - 1].at + MIN_BACKGROUND_INTERVAL)
  }

  predicate BackoffOk(clock: nat, background: BackgroundTask, row: seq<nat>, starts: seq<Start>) {
    && RowOk(row)
    && StartsOk(starts)
    && (starts != [] ==> starts[|starts| - 1].at <= clock)
    && match background {
         case Looping(failures, retryAt) => Counters(row, clock, failures, retryAt)
         case Peeking(now, failures, retryAt) => Counters(row, clock, failures, retryAt) && now <= clock
         case Sleeping(until, failures, retryAt) =>
           Counters(row, clock, failures, retryAt) && MayStartAt(starts, until, retryAt)
         case Waking(failures, retryAt) =>
           Counters(row, clock, failures, retryAt) && MayStartAt(starts, clock, retryAt)
         case Attempting(failures, _) =>
           failures == Min(|row|, U32_MAX) && starts != [] && starts[|starts| - 1].row == row
         case Exited => true
       }
  }

  predicate BackoffInv(w: World) {
    BackoffOk(w.clock, w.background, w.row, w.starts)
  }

  lemma LaterIsFine(clock: nat, later: nat, background: BackgroundTask, row: seq<nat>, starts: seq<Start>)
    requires BackoffOk(clock, background, row, starts) && clock <= later
    ensures BackoffOk(later, background, row, starts)
  {
  }

  lemma SleepIsLongEnough(clock: nat, state: Option<Tokens>, b: BackgroundTask, row: seq<nat>, starts: seq<Start>)
    requires b.Peeking? && BackoffOk(clock, b, row, starts)
    ensures var until := clock + UntilRenewal(state, b.retryAt, b.now);
            BackoffOk(clock, Sleeping(until, b.failures, b.retryAt), row, starts)
  {
  }

  lemma AttemptIsLateEnough(clock: nat, b: BackgroundTask, row: seq<nat>, starts: seq<Start>, pending: Pending)
    requires b.Waking? && BackoffOk(clock, b, row, starts)
    ensures BackoffOk(clock, Attempting(b.failures, pending), row, starts + [Start(clock, row)])
  {
    var starts' := starts + [Start(clock, row)];
    forall s <- starts' | s.row != [] ensures RowOk(s.row) && s.at >= s.row[|s.row| - 1] + NamedDelay(|s.row| - 1) {
      assert s in starts || s == Start(clock, row);
    }
  }

  lemma FailureCounts(clock: nat, b: BackgroundTask, row: seq<nat>, starts: seq<Start>)
    requires b.Attempting? && BackoffOk(clock, b, row, starts)
    ensures BackoffOk(clock, Looping(SaturatingIncrement(b.failures), Some(clock + BackoffDelay(b.failures))),
                      row + [clock], starts)
  {
    SaturatingBackoffIsExact(|row|, b.failures);
    assert starts[|starts| - 1] in starts;
  }

  lemma BackoffAfterReply(w: World, response: Response)
    requires BackoffInv(w) && Enabled(w, Receive(Task.Background, response))
    ensures BackoffInv(Apply(w, Receive(Task.Background, response)))
  {
    BackgroundReply(w, response);
    FailureCounts(w.clock, w.background, w.row, w.starts);
  }

  /** What a reply does to what the background task keeps for itself. */
  lemma BackgroundReply(w: World, response: Response)
    requires Enabled(w, Receive(Task.Background, response))
    ensures var w' := Apply(w, Receive(Task.Background, response));
            var b := w.background;
            && w'.clock == w.clock && w'.starts == w.starts
            && (|| (w'.background.Attempting? && w'.background.failures == b.failures && w'.row == w.row)
                || (w'.background == Looping(0, None) && w'.row == [])
                || (&& w'.background
                    == Looping(SaturatingIncrement(b.failures), Some(w.clock + BackoffDelay(b.failures)))
                    && w'.row == w.row + [w.clock]))
  {
  }

  /** Tunnels do not touch what the background task keeps for itself. */
  lemma TunnelsKeepOut(w: World, step: Step)
    requires Enabled(w, step)
    requires !step.Tick? && !step.Loop? && !step.Peek? && !step.Wake? && !step.Attempt?
    requires step.Receive? ==> step.task.Tunnel?
    ensures var w' := Apply(w, step);
            w'.clock == w.clock && w'.background == w.background && w'.row == w.row && w'.starts == w.starts
  {
  }

  lemma BackoffWhenWoken(w: World, step: Step)
    requires BackoffInv(w) && Enabled(w, step) && (step.Loop? || step.Wake?)
    ensures BackoffInv(Apply(w, step))
  {
  }

  lemma BackoffAfterTick(w: World, elapsed: nat)
    requires BackoffInv(w)
    ensures BackoffInv(Apply(w, Tick(elapsed)))
  {
    LaterIsFine(w.clock, w.clock + elapsed, w.background, w.row, w.starts);
  }

  lemma BackoffAfterPeek(w: World)
    requires BackoffInv(w) && Enabled(w, Peek)
    ensures BackoffInv(Apply(w, Peek))
  {
    SleepIsLongEnough(w.clock, w.state, w.background, w.row, w.starts);
  }

  lemma BackoffAfterAttempt(w: World)
    requires BackoffInv(w) && Enabled(w, Attempt)
    ensures BackoffInv(Apply(w, Attempt))
  {
    AttemptIsLateEnough(w.clock, w.background, w.row, w.starts, Begin(w.state, w.clock));
  }

  lemma BackoffUntouched(w: World, step: Step)
    requires BackoffInv(w) && Enabled(w, step)
    requires !step.Tick? && !step.Loop? && !step.Peek? && !step.Wake? && !step.Attempt?
    requires step.Receive? ==> step.task.Tunnel?
    ensures BackoffInv(Apply(w, step))
  {
    TunnelsKeepOut(w, step);
  }

  lemma BackoffKept(w: World, step: Step)
    requires BackoffInv(w) && Enabled(w, step)
    ensures BackoffInv(Apply(w, step))
  {
    match step {
      case Tick(elapsed) => BackoffAfterTick(w, elapsed);
      case Receive(Background, response) => BackoffAfterReply(w, response);
      case Loop => BackoffWhenWoken(w, step);
      case Peek => BackoffAfterPeek(w);
      case Wake => BackoffWhenWoken(w, step);
      case Attempt => BackoffAfterAttempt(w);
      case _ => BackoffUntouched(w, step);
    }
  }
}

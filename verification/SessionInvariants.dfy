/** What every step of the token session protocol keeps. */
module SessionInvariants {
  import opened Wrappers
  import opened Session
  import opened SessionProtocol

  /** The lock holder is the one task with a token request in flight. */
  ghost predicate LockInv(w: World) {
    forall task :: w.lock == Some(task) <==> Waits(w, task)
  }

  /** A renewal under way still finds what it found when it took the lock. */
  predicate PendingOk(w: World, pending: Pending) {
    && pending.entered == w.state
    && pending.enteredAt <= w.clock
    && Due(w.state, pending.enteredAt)
    && match pending {
         case AwaitingRefresh(_, at) =>
           RefreshUsable(w.state, at) && Presentation(w.state.value.refresh, |w.issues|) in w.presented
         case AwaitingLogin(_, at, None) => !RefreshUsable(w.state, at)
         case AwaitingLogin(_, at, Some(reply)) => RefreshUsable(w.state, at) && Judge(reply).Rejected?
       }
  }

  ghost predicate PendingInv(w: World) {
    && w.state.Some?
    && forall task | Waits(w, task) :: PendingOk(w, PendingOf(w, task))
  }

  predicate WellTimed(issue: Issue) {
    && issue.at <= issue.tokens.renewAt <= issue.tokens.accessExpires
    && 5 * (issue.tokens.renewAt - issue.at) == 4 * (issue.tokens.accessExpires - issue.at)
  }

  function Last(issues: seq<Issue>): Issue
    requires issues != []
  {
    issues[|issues| - 1]
  }

  predicate Distinct(issues: seq<Issue>) {
    forall i, j | 0 <= i < j < |issues| ::
      && issues[i].tokens.access != issues[j].tokens.access
      && issues[i].tokens.refresh != issues[j].tokens.refresh
  }

  /** The state is the last successful answer, except perhaps for when it is renewed. */
  predicate StateInv(w: World) {
    && w.state.Some?
    && w.issues != []
    && w.state.value.(renewAt := Last(w.issues).tokens.renewAt) == Last(w.issues).tokens
    && Distinct(w.issues)
    && forall i | 0 <= i < |w.issues| :: WellTimed(w.issues[i]) && w.issues[i].at <= w.clock
  }

  /** What was presented is the refresh token of the last answer before, and what was exchanged had
      been presented. */
  predicate PresentedOk(issues: seq<Issue>, presented: seq<Presentation>) {
    && (forall p <- presented :: 1 <= p.issued <= |issues| && p.token == issues[p.issued - 1].tokens.refresh)
    && (forall i {:trigger issues[i].exchanged} | 0 <= i < |issues| && issues[i].exchanged.Some? ::
          Presentation(issues[i].exchanged.value, i) in presented)
  }

  predicate PresentedInv(w: World) {
    PresentedOk(w.issues, w.presented)
  }

  lemma LockKept(w: World, step: Step)
    requires LockInv(w) && Enabled(w, step)
    ensures LockInv(Apply(w, step))
  {
  }

  /** The shared state after a reply of the router: untouched while the renewal goes on, replaced by
      new tokens when it succeeds, the same but for `renewAt` when it fails. */
  predicate Answered(w: World, task: Task, response: Response, w': World)
    requires Waits(w, task)
  {
    && w'.presented == w.presented && w'.clock == w.clock && w'.reported == w.reported
    && match Proceed(PendingOf(w, task), w.state, Reply(response, w.clock)) {
         case Continue(pending) =>
           && w'.state == w.state && w'.issues == w.issues && w'.lock == w.lock
           && Waits(w', task) && PendingOf(w', task) == pending
         case Finish(renewal) =>
           && renewal.at == w.clock && w'.lock == None && w'.state.Some?
           && if renewal.outcome.Renewed? then
                && w'.state == renewal.state
                && w'.issues != []
                && w'.issues == w.issues + [Issue(w.clock, w'.state.value, Last(w'.issues).exchanged)]
                && WellTimed(Last(w'.issues))
                && NewTokens(w.issues, w'.state.value)
                && Last(w'.issues).exchanged
                == (if PendingOf(w, task).AwaitingRefresh? && w.state.Some? then Some(w.state.value.refresh) else None)
              else
                && renewal.state == w.state
                && w'.issues == w.issues
                && w.state.Some?
                && w'.state.value.(renewAt := w.state.value.renewAt) == w.state.value
       }
  }

  lemma ProceedsTo(pending: Pending, state: Option<Tokens>, reply: Reply)
    ensures match Proceed(pending, state, reply)
            case Continue(next) => next == AwaitingLogin(pending.entered, pending.enteredAt, Some(reply))
            case Finish(renewal) =>
              && renewal.at == reply.at
              && (!renewal.outcome.Renewed? ==> renewal.state == state)
              && (renewal.outcome.Renewed? ==>
                    && Judge(reply).Fresh? && renewal.state == Some(Judge(reply).tokens)
                    && WellTimed(Issue(reply.at, renewal.state.value, None)))
  {
  }

  lemma TunnelAnswered(w: World, id: nat, response: Response)
    requires StateInv(w) && Enabled(w, Receive(Tunnel(id), response))
    ensures Answered(w, Tunnel(id), response, Apply(w, Receive(Tunnel(id), response)))
  {
    var pending, reply := PendingOf(w, Tunnel(id)), Reply(response, w.clock);
    ProceedsTo(pending, w.state, reply);
    match Proceed(pending, w.state, reply)
    case Continue(next) => assert Apply(w, Receive(Tunnel(id), response)).tunnels[id].stage.pending == next;
    case Finish(renewal) => assert Apply(w, Receive(Tunnel(id), response)) == TunnelFinish(w, id, renewal);
  }

  lemma BackgroundAnswered(w: World, response: Response)
    requires StateInv(w) && Enabled(w, Receive(Task.Background, response))
    ensures Answered(w, Task.Background, response, Apply(w, Receive(Task.Background, response)))
  {
  }

  lemma ReceiveEffect(w: World, task: Task, response: Response)
    requires StateInv(w) && Enabled(w, Receive(task, response))
    ensures Answered(w, task, response, Apply(w, Receive(task, response)))
  {
    match task
    case Tunnel(id) => TunnelAnswered(w, id, response);
    case Background => BackgroundAnswered(w, response);
  }

  lemma PendingKept(w: World, step: Step)
    requires LockInv(w) && PendingInv(w) && StateInv(w) && Enabled(w, step)
    ensures PendingInv(Apply(w, step))
  {
    var w' := Apply(w, step);
    LockKept(w, step);
    if step.Receive? {
      ReceiveEffect(w, step.task, step.response);
    }
    forall task | Waits(w', task) ensures PendingOk(w', PendingOf(w', task)) {
      assert w'.lock == Some(task);
      if Waits(w, task) {
        assert PendingOk(w, PendingOf(w, task));
      }
    }
  }

  lemma StateKept(w: World, step: Step)
    requires LockInv(w) && PendingInv(w) && StateInv(w) && Enabled(w, step)
    ensures StateInv(Apply(w, step))
  {
    if step.Receive? {
      ReceiveEffect(w, step.task, step.response);
    }
  }

  lemma PresentMore(issues: seq<Issue>, presented: seq<Presentation>)
    requires PresentedOk(issues, presented) && issues != []
    ensures PresentedOk(issues, presented + [Presentation(Last(issues).tokens.refresh, |issues|)])
  {
  }

  lemma IssueMore(issues: seq<Issue>, presented: seq<Presentation>, issue: Issue)
    requires PresentedOk(issues, presented)
    requires issue.exchanged.Some? ==> Presentation(issue.exchanged.value, |issues|) in presented
    ensures PresentedOk(issues + [issue], presented)
  {
  }

  lemma PresentedKept(w: World, step: Step)
    requires LockInv(w) && PendingInv(w) && StateInv(w) && PresentedInv(w) && Enabled(w, step)
    ensures PresentedInv(Apply(w, step))
  {
    var w' := Apply(w, step);
    match step {
      case Receive(task, response) =>
        ReceiveEffect(w, task, response);
        assert PendingOk(w, PendingOf(w, task));
        if w'.issues != w.issues {
          IssueMore(w.issues, w.presented, Last(w'.issues));
        }
      case Ask(_) => PresentMore(w.issues, w.presented);
      case Attempt => PresentMore(w.issues, w.presented);
      case _ =>
    }
  }
}

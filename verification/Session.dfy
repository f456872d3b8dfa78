/** The token login of `src/session.rs`: one mutex-guarded `Option<Tokens>` and the operations on it.

    A request to the router is represented by what came back and by the clock reading taken when it
    came back. Between two awaits an operation reads the clock once. Times are nanoseconds. */
module Session {
  import opened Wrappers
  import opened Clock
  import Text

  const RENEW_RETRY_DELAY: nat := 5 * SECOND
  const MIN_BACKGROUND_INTERVAL: nat := SECOND
  const MAX_BACKGROUND_RETRY_DELAY: nat := 300 * SECOND
  const MAX_RESPONSE_BYTES: nat := 64 * 1024
  const U32_MAX: nat := 0xFFFF_FFFF
  const BEARER := "Bearer "

  datatype Tokens = Tokens(access: string, refresh: string, renewAt: nat, accessExpires: nat, refreshExpires: nat)

  /** The JSON body of a token answer; lifetimes in seconds. */
  datatype TokenResponse = TokenResponse(accessToken: string, expiresIn: nat, refreshToken: string,
                                         refreshExpiresIn: nat)

  /** What a token request came to: no answer, or a status with a body that may not be tokens. */
  datatype Response =
    | NoAnswer
    | Answer(status: nat, contentLength: Option<nat>, body: Option<TokenResponse>)

  /** A response and the clock reading taken when it was there. */
  datatype Reply = Reply(response: Response, at: nat)

  /** `request`: fresh tokens, `RequestError::Rejected` or `RequestError::Failed`. */
  datatype Verdict = Fresh(tokens: Tokens) | Rejected | Failed

  predicate Printable(token: string) {
    token != "" && forall c <- token :: '!' <= c <= '~'
  }

  function IntoTokens(response: TokenResponse, now: nat): (tokens: Option<Tokens>)
    ensures tokens.Some? <==> Printable(response.accessToken) && Printable(response.refreshToken)
    ensures tokens.Some? ==>
              && tokens.value.access == response.accessToken && tokens.value.refresh == response.refreshToken
              && now <= tokens.value.renewAt <= tokens.value.accessExpires
              && 5 * (tokens.value.renewAt - now) == 4 * (tokens.value.accessExpires - now)
              && tokens.value.accessExpires - now == response.expiresIn * SECOND
              && tokens.value.refreshExpires - now == response.refreshExpiresIn * SECOND
  {
    if !Printable(response.accessToken) || !Printable(response.refreshToken) then
      None
    else
      var accessTtl := response.expiresIn * SECOND;
      Some(Tokens(response.accessToken, response.refreshToken,
                  now + accessTtl * 4 / 5, now + accessTtl, now + response.refreshExpiresIn * SECOND))
  }

  function Judge(reply: Reply): (verdict: Verdict)
    ensures verdict.Fresh? ==>
              && reply.response.Answer? && reply.response.body.Some?
              && IntoTokens(reply.response.body.value, reply.at) == Some(verdict.tokens)
  {
    match reply.response
    case NoAnswer => Failed
    case Answer(status, contentLength, body) =>
      if status == 401 then
        Rejected
      else if !(200 <= status < 300) then
        Failed
      else if contentLength.Some? && contentLength.value > MAX_RESPONSE_BYTES then
        Failed
      else if body.None? then
        Failed
      else
        match IntoTokens(body.value, reply.at)
        case Some(tokens) => Fresh(tokens)
        case None => Failed
  }

  /** Which answers count, by status, length and body: tokens are accepted from 200 to 299, with a body
      of at most 64 KiB, if a length is given, that is two tokens of visible ASCII; 401 is a refusal;
      everything else, no answer included, is a failure. */
  lemma AnswersAreJudged(reply: Reply)
    ensures Judge(reply).Rejected? <==> reply.response.Answer? && reply.response.status == 401
    ensures Judge(reply).Fresh? <==>
              && reply.response.Answer? && 200 <= reply.response.status <= 299
              && (reply.response.contentLength.Some? ==> reply.response.contentLength.value <= 65536)
              && reply.response.body.Some?
              && var body := reply.response.body.value;
                 && body.accessToken != "" && body.refreshToken != ""
                 && (forall c <- body.accessToken + body.refreshToken :: 33 <= c as int <= 126)
    ensures Judge(reply).Fresh? ==>
              var tokens, body := Judge(reply).tokens, reply.response.body.value;
              && tokens.access == body.accessToken && tokens.refresh == body.refreshToken
              && tokens.accessExpires == reply.at + body.expiresIn * 1_000_000_000
              && tokens.refreshExpires == reply.at + body.refreshExpiresIn * 1_000_000_000
              && 10 * tokens.renewAt == 10 * reply.at + 8 * body.expiresIn * 1_000_000_000
  {
    if reply.response.Answer? && reply.response.body.Some? {
      var body := reply.response.body.value;
      var both := body.accessToken + body.refreshToken;
      assert forall c <- body.accessToken :: c in both;
      assert forall c <- body.refreshToken :: c in both;
      assert forall c <- both :: c in body.accessToken || c in body.refreshToken;
    }
  }

  // ---- Renewal, as a function of the state it starts from and the replies it gets ----

  datatype Outcome = Renewed | Refused | Unavailable

  /** The state a renewal leaves, how it ended, and the clock when it ended. */
  datatype Renewal = Renewal(state: Option<Tokens>, outcome: Outcome, at: nat)

  predicate RefreshUsable(state: Option<Tokens>, now: nat) {
    state.Some? && now < state.value.refreshExpires
  }

  function AfterLogin(state: Option<Tokens>, login: Reply): Renewal {
    match Judge(login)
    case Fresh(tokens) => Renewal(Some(tokens), Renewed, login.at)
    case Rejected => Renewal(state, Refused, login.at)
    case Failed => Renewal(state, Unavailable, login.at)
  }

  function RenewalOf(state: Option<Tokens>, now: nat, refresh: Reply, login: Reply): Renewal {
    if RefreshUsable(state, now) then
      match Judge(refresh)
      case Fresh(tokens) => Renewal(Some(tokens), Renewed, refresh.at)
      case Rejected => AfterLogin(state, login)
      case Failed => Renewal(state, Unavailable, refresh.at)
    else
      AfterLogin(state, login)
  }

  predicate Due(state: Option<Tokens>, now: nat) {
    state.None? || now >= state.value.renewAt
  }

  function BearerValue(token: string): string {
    BEARER + token
  }

  /** What a tunnel's `authorization` does once its renewal has ended: the state it leaves and the
      access token it hands out, if any. */
  function Settle(renewal: Renewal): (Option<Tokens>, Option<string>) {
    if renewal.state.None? then
      (None, None)
    else if renewal.outcome.Renewed? then
      (renewal.state, Some(renewal.state.value.access))
    else if renewal.at < renewal.state.value.accessExpires then
      (Some(renewal.state.value.(renewAt := renewal.at + RENEW_RETRY_DELAY)), Some(renewal.state.value.access))
    else
      (renewal.state, None)
  }

  /** `authorization`: the state it leaves and the access token it hands out. */
  function Authorized(state: Option<Tokens>, now: nat, refresh: Reply, login: Reply): (Option<Tokens>, Option<string>) {
    if Due(state, now) then Settle(RenewalOf(state, now, refresh, login)) else (state, Some(state.value.access))
  }

  /** `rejected`: only the token that is current becomes due. */
  function AfterReject(state: Option<Tokens>, authorization: string, now: nat): Option<Tokens> {
    if state.Some? && Text.StartsWith(authorization, BEARER) && authorization[|BEARER|..] == state.value.access then
      Some(state.value.(renewAt := now))
    else
      state
  }

  function Max(a: nat, b: nat): nat { if a >= b then a else b }
  function Min(a: nat, b: nat): nat { if a <= b then a else b }

  /** `until_background_renewal`: `now` was read before the lock was taken. */
  function UntilRenewal(state: Option<Tokens>, retryAt: Option<nat>, now: nat): (wait: nat)
    ensures wait >= MIN_BACKGROUND_INTERVAL
    ensures state.Some? ==> now + wait >= state.value.renewAt
    ensures retryAt.Some? ==> now + wait >= retryAt.value
    ensures wait > MIN_BACKGROUND_INTERVAL ==>
              (state.Some? && now + wait == state.value.renewAt) || (retryAt.Some? && now + wait == retryAt.value)
  {
    var renewAt := if state.Some? then state.value.renewAt else now;
    var due := if retryAt.Some? then Max(renewAt, retryAt.value) else renewAt;
    Max(if due >= now then due - now else 0, MIN_BACKGROUND_INTERVAL)
  }

  // ---- Back-off arithmetic ----

  function Pow2(n: nat): (p: nat)
    ensures p >= 1
  {
    if n == 0 then 1 else 2 * Pow2(n - 1)
  }

  /** `2_u32.saturating_pow(n)`. */
  function SaturatingPow2(n: nat): nat {
    Min(Pow2(n), U32_MAX)
  }

  /** The delay after a failure, `failures` failures having come before it in a row. */
  function BackoffDelay(failures: nat): nat {
    Min(RENEW_RETRY_DELAY * SaturatingPow2(failures), MAX_BACKGROUND_RETRY_DELAY)
  }

  function SaturatingIncrement(failures: nat): nat {
    Min(failures + 1, U32_MAX)
  }

  /** The formula the documentation names: 5 s doubled `k` times, at most 5 minutes. */
  function NamedDelay(k: nat): nat {
    Min(5 * SECOND * Pow2(k), 300 * SECOND)
  }

  /** The counter is a `u32` that stays at its largest value. */
  lemma CounterSaturates(failures: nat)
    requires failures <= 4_294_967_295
    ensures SaturatingIncrement(failures) == if failures == 4_294_967_295 then failures else failures + 1
  {
  }

  lemma {:induction false} Pow2Monotone(a: nat, b: nat)
    requires a <= b
    ensures Pow2(a) <= Pow2(b)
    decreases b
  {
    if a < b {
      Pow2Monotone(a, b - 1);
    }
  }

  lemma BackoffIsCapped(failures: nat)
    requires failures >= 6
    ensures BackoffDelay(failures) == NamedDelay(failures) == 300 * SECOND
  {
    Pow2Monotone(6, failures);
    assert Pow2(6) == 64;
  }

  lemma BackoffBelowTheCap(failures: nat)
    requires failures < 6
    ensures BackoffDelay(failures) == NamedDelay(failures) == 5 * SECOND * Pow2(failures)
  {
    Pow2Monotone(failures, 5);
    assert Pow2(5) == 32;
  }

  /** However many failures `k` came before, the saturating arithmetic on the saturating counter
      gives the documented delay. */
  lemma SaturatingBackoffIsExact(k: nat, counter: nat)
    requires counter == Min(k, U32_MAX)
    ensures BackoffDelay(counter) == NamedDelay(k)
  {
    if k >= 6 {
      BackoffIsCapped(k);
      BackoffIsCapped(counter);
    } else {
      BackoffBelowTheCap(k);
    }
  }

  // ---- The session object ----

  /** The credential a token request carries: the refresh token, or the Basic credentials. */
  datatype Credential = RefreshToken(token: string) | Password

  /** The requests a renewal sends, in order. */
  function Sent(state: Option<Tokens>, now: nat, refresh: Reply): seq<Credential> {
    if !RefreshUsable(state, now) then
      [Password]
    else if Judge(refresh).Rejected? then
      [RefreshToken(state.value.refresh), Password]
    else
      [RefreshToken(state.value.refresh)]
  }

  /** A refresh token is used while it has not run out. Refused with 401, it is followed by a login;
      any other failure ends the renewal there. What the last request sent came to decides. */
  lemma RenewalByStatus(state: Option<Tokens>, now: nat, refresh: Reply, login: Reply)
    ensures var usable := state.Some? && now < state.value.refreshExpires;
            var refused := refresh.response.Answer? && refresh.response.status == 401;
            var last := if usable && !refused then refresh else login;
            && Sent(state, now, refresh)
               == (if usable then [RefreshToken(state.value.refresh)] + (if refused then [Password] else [])
                   else [Password])
            && RenewalOf(state, now, refresh, login)
               == (if Judge(last).Fresh? then Renewal(Some(Judge(last).tokens), Renewed, last.at)
                   else
                     var outcome :=
                       if last.response.Answer? && last.response.status == 401 then Refused else Unavailable;
                     Renewal(state, outcome, last.at))
  {
    AnswersAreJudged(refresh);
    AnswersAreJudged(login);
  }

  class TokenSession {
    var state: Option<Tokens>

    constructor ()
      ensures state == None
    {
      state := None;
    }

    method Renew(now: nat, refresh: Reply, login: Reply) returns (outcome: Outcome, at: nat, sent: seq<Credential>)
      modifies this
      ensures Renewal(state, outcome, at) == RenewalOf(old(state), now, refresh, login)
      ensures sent == Sent(old(state), now, refresh)
      ensures old(state).Some? && now < old(state).value.refreshExpires ==>
                if refresh.response.Answer? && refresh.response.status == 401 then
                  sent == [RefreshToken(old(state).value.refresh), Password] && at == login.at
                else
                  sent == [RefreshToken(old(state).value.refresh)] && at == refresh.at
    {
      AnswersAreJudged(refresh);
      sent := [];
      if state.Some? && now < state.value.refreshExpires {
        sent := [RefreshToken(state.value.refresh)];
        match Judge(refresh) {
          case Fresh(tokens) =>
            state := Some(tokens);
            return Renewed, refresh.at, sent;
          case Rejected =>
          case Failed =>
            return Unavailable, refresh.at, sent;
        }
      }
      sent := sent + [Password];
      at := login.at;
      match Judge(login) {
        case Fresh(tokens) =>
          state := Some(tokens);
          outcome := Renewed;
        case Rejected =>
          outcome := Refused;
        case Failed =>
          outcome := Unavailable;
      }
    }

    method Authorization(now: nat, refresh: Reply, login: Reply)
      returns (authorization: Result<string>, sent: seq<Credential>)
      modifies this
      ensures state == Authorized(old(state), now, refresh, login).0
      ensures authorization == match Authorized(old(state), now, refresh, login).1
                               case Some(token) => Ok(BearerValue(token))
                               case None => Err
      ensures sent == if Due(old(state), now) then Sent(old(state), now, refresh) else []
      ensures old(state).Some? && old(state).value.renewAt <= now < old(state).value.refreshExpires
              && refresh.response.Answer? && refresh.response.status == 401 ==>
                sent == [RefreshToken(old(state).value.refresh), Password]
    {
      sent := [];
      if state.None? || now >= state.value.renewAt {
        var outcome, at;
        outcome, at, sent := Renew(now, refresh, login);
        if !outcome.Renewed? {
          if state.Some? && at < state.value.accessExpires {
            state := Some(state.value.(renewAt := at + RENEW_RETRY_DELAY));
          } else {
            return Err, sent;
          }
        }
      }
      authorization := Ok(BearerValue(state.value.access));
    }

    method UntilBackgroundRenewal(retryAt: Option<nat>, now: nat) returns (wait: nat)
      ensures wait == UntilRenewal(state, retryAt, now)
    {
      var renewAt := if state.Some? then state.value.renewAt else now;
      var due := if retryAt.Some? then Max(renewAt, retryAt.value) else renewAt;
      wait := Max(if due >= now then due - now else 0, MIN_BACKGROUND_INTERVAL);
    }

    /** Whether a renewal was made and failed; a failed one leaves the state alone. */
    method RenewInBackground(now: nat, refresh: Reply, login: Reply)
      returns (failed: bool, at: nat, sent: seq<Credential>)
      modifies this
      ensures !Due(old(state), now) ==> !failed && at == now && sent == [] && state == old(state)
      ensures Due(old(state), now) ==>
                var renewal := RenewalOf(old(state), now, refresh, login);
                && state == renewal.state && at == renewal.at && failed == !renewal.outcome.Renewed?
                && sent == Sent(old(state), now, refresh)
      ensures failed ==> state == old(state)
      ensures old(state).Some? && old(state).value.renewAt <= now < old(state).value.refreshExpires
              && refresh.response.Answer? && refresh.response.status == 401 ==>
                sent == [RefreshToken(old(state).value.refresh), Password]
    {
      if state.Some? && now < state.value.renewAt {
        return false, now, [];
      }
      var outcome;
      outcome, at, sent := Renew(now, refresh, login);
      failed := !outcome.Renewed?;
    }

    method Rejected(authorization: string, now: nat)
      modifies this
      ensures state == AfterReject(old(state), authorization, now)
    {
      if state.Some? && Text.StartsWith(authorization, BEARER) && authorization[|BEARER|..] == state.value.access {
        state := Some(state.value.(renewAt := now));
      }
    }
  }

  // ---- The background task ----

  /** The two locals of `keep_fresh` after an attempt that ended at `at`. */
  function AfterAttempt(failed: bool, failures: nat, at: nat): (nat, Option<nat>) {
    if failed then (SaturatingIncrement(failures), Some(at + BackoffDelay(failures))) else (0, None)
  }

  /** One turn of `keep_fresh`: whether the session could still be upgraded before the sleep and
      after it, the clock readings, and the replies a renewal would get. */
  datatype Turn = Turn(alive: bool, now: nat, awake: bool, attemptAt: nat, refresh: Reply, login: Reply)

  /** The session and the two locals, with the waits made so far. */
  datatype Keeper = Keeper(state: Option<Tokens>, failures: nat, retryAt: Option<nat>, waits: seq<nat>)

  function BackgroundTurn(b: Keeper, turn: Turn): Keeper
    requires turn.alive
  {
    var wait := UntilRenewal(b.state, b.retryAt, turn.now);
    if !turn.awake then
      b.(waits := b.waits + [wait])
    else if !Due(b.state, turn.attemptAt) then
      Keeper(b.state, 0, None, b.waits + [wait])
    else
      var renewal := RenewalOf(b.state, turn.attemptAt, turn.refresh, turn.login);
      var (failures, retryAt) := AfterAttempt(!renewal.outcome.Renewed?, b.failures, renewal.at);
      Keeper(renewal.state, failures, retryAt, b.waits + [wait])
  }

  function BackgroundRun(b: Keeper, turns: seq<Turn>): Keeper
    decreases |turns|
  {
    if turns == [] || !turns[0].alive then
      b
    else
      var next := BackgroundTurn(b, turns[0]);
      if turns[0].awake then BackgroundRun(next, turns[1..]) else next
  }

  /** `keep_fresh` while no tunnel uses the session; the turns it gets to make are `turns`. What
      tunnels do meanwhile is the subject of module SessionProtocol. */
  method KeepFresh(session: TokenSession, turns: seq<Turn>)
    returns (failures: nat, retryAt: Option<nat>, waits: seq<nat>)
    modifies session
    ensures Keeper(session.state, failures, retryAt, waits)
         == BackgroundRun(Keeper(old(session.state), 0, None, []), turns)
  {
    failures, retryAt, waits := 0, None, [];
    var rest := turns;
    while rest != [] && rest[0].alive
      invariant BackgroundRun(Keeper(session.state, failures, retryAt, waits), rest)
             == BackgroundRun(Keeper(old(session.state), 0, None, []), turns)
      decreases |rest|
    {
      var turn := rest[0];
      var wait := session.UntilBackgroundRenewal(retryAt, turn.now);
      waits := waits + [wait];
      if !turn.awake {
        return;
      }
      var failed, at, _ := session.RenewInBackground(turn.attemptAt, turn.refresh, turn.login);
      if failed {
        var delay := BackoffDelay(failures);
        failures := SaturatingIncrement(failures);
        retryAt := Some(at + delay);
      } else {
        failures, retryAt := 0, None;
      }
      rest := rest[1..];
    }
  }

  // ---- What the background task does over its turns ----

  predicate Tries(turn: Turn) {
    turn.alive && turn.awake
  }

  function RenewalIn(b: Keeper, turn: Turn): Renewal {
    RenewalOf(b.state, turn.attemptAt, turn.refresh, turn.login)
  }

  predicate FailsIn(b: Keeper, turn: Turn) {
    Tries(turn) && Due(b.state, turn.attemptAt) && !RenewalIn(b, turn).outcome.Renewed?
  }

  /** A failed renewal leaves what it found, so every turn of a row of failures meets the same state. */
  lemma FailureChangesNothing(b: Keeper, turn: Turn)
    requires FailsIn(b, turn)
    ensures var after := BackgroundTurn(b, turn);
            && after.state == b.state && after.failures == SaturatingIncrement(b.failures)
            && after.retryAt == Some(RenewalIn(b, turn).at + BackoffDelay(b.failures))
            && after.waits == b.waits + [UntilRenewal(b.state, b.retryAt, turn.now)]
  {
  }

  lemma {:induction false} RunOneMore(b: Keeper, turns: seq<Turn>, turn: Turn)
    requires (forall t <- turns :: Tries(t)) && Tries(turn)
    ensures BackgroundRun(b, turns + [turn]) == BackgroundTurn(BackgroundRun(b, turns), turn)
    decreases |turns|
  {
    if turns == [] {
      assert [turn][1..] == [];
      assert BackgroundRun(BackgroundTurn(b, turn), []) == BackgroundTurn(b, turn);
    } else {
      assert Tries(turns[0]);
      assert (turns + [turn])[1..] == turns[1..] + [turn];
      RunOneMore(BackgroundTurn(b, turns[0]), turns[1..], turn);
    }
  }

  /** Whatever happens, every sleep takes at least a second. */
  lemma {:induction false} SleepsAreLong(b: Keeper, turns: seq<Turn>)
    requires forall wait <- b.waits :: wait >= MIN_BACKGROUND_INTERVAL
    ensures forall wait <- BackgroundRun(b, turns).waits :: wait >= MIN_BACKGROUND_INTERVAL
    decreases |turns|
  {
    if turns != [] && turns[0].alive && turns[0].awake {
      SleepsAreLong(BackgroundTurn(b, turns[0]), turns[1..]);
    }
  }

  /** A row of failures: every turn tries, finds the tokens due and fails to renew them. */
  predicate AllFail(b: Keeper, turns: seq<Turn>) {
    forall turn <- turns :: FailsIn(b, turn)
  }

  lemma {:induction false} RowCounts(b: Keeper, turns: seq<Turn>)
    requires AllFail(b, turns) && b.failures == 0
    ensures var after := BackgroundRun(b, turns);
            && after.state == b.state && after.failures == Min(|turns|, U32_MAX)
            && |after.waits| == |b.waits| + |turns|
            && (turns != [] ==>
                  after.retryAt == Some(RenewalIn(b, turns[|turns| - 1]).at + NamedDelay(|turns| - 1)))
    decreases |turns|
  {
    if turns != [] {
      var before, last := turns[..|turns| - 1], turns[|turns| - 1];
      assert turns == before + [last];
      assert FailsIn(b, last);
      forall t <- before ensures FailsIn(b, t) {
        assert t in turns;
      }
      RowCounts(b, before);
      RunOneMore(b, before, last);
      FailureChangesNothing(BackgroundRun(b, before), last);
      SaturatingBackoffIsExact(|before|, Min(|before|, U32_MAX));
    }
  }

  /** After `n` failures in a row the loop sleeps until the documented delay after the last is over,
      and not less than a second; a turn that does not fail starts the row anew. */
  lemma SleepsOutTheDelay(b: Keeper, turns: seq<Turn>, next: Turn)
    requires AllFail(b, turns) && b.failures == 0 && turns != [] && next.alive
    ensures var after := BackgroundTurn(BackgroundRun(b, turns), next);
            && |after.waits| == |b.waits| + |turns| + 1
            && after.waits[|after.waits| - 1] >= MIN_BACKGROUND_INTERVAL
            && next.now + after.waits[|after.waits| - 1] 
               >= RenewalIn(b, turns[|turns| - 1]).at + NamedDelay(|turns| - 1)
            && (b.state.Some? ==> next.now + after.waits[|after.waits| - 1] >= b.state.value.renewAt)
            && (next.awake && !FailsIn(b, next) ==> after.failures == 0 && after.retryAt == None)
  {
    RowCounts(b, turns);
  }

  lemma RejectMatchesItsOwnHeader(state: Option<Tokens>, token: string, now: nat)
    ensures BearerValue(token) == "Bearer " + token
    ensures AfterReject(state, BearerValue(token), now)
         == if state.Some? && state.value.access == token then Some(state.value.(renewAt := now)) else state
  {
    assert BearerValue(token)[..|BEARER|] == BEARER;
    assert BearerValue(token)[|BEARER|..] == token;
  }
}

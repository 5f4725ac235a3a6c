/** Charging and refreshing through a provider (`providers/service.py` over `run_authenticated`). */
module ProviderCalls {
  import opened Wrappers

  type Millis = nat

  datatype Error = AuthRequired | Transient(code: string) | Permanent(code: string) | Other(name: string)

  datatype ChargeResult = SUCCESS | FAILED | UNVERIFIED

  datatype ChargeOutcome = ChargeOutcome(result: ChargeResult, message: string, reachedProvider: bool, employeeOnly: bool)

  datatype Reply = Returns(outcome: ChargeOutcome) | Raises(error: Error)

  /** One call of the adapter: what it answered, and what happened at the provider. */
  datatype Call = Call(reply: Reply, sent: bool, accepted: bool)

  /**
   * The docstring contract of `BaseAdapter.charge`, and one assumption of this model: an adapter
   * that returns FAILED, rather than raising, knows that the provider accepted nothing.
   */
  ghost predicate Obeys(c: Call) {
    && (c.accepted ==> c.sent)
    && match c.reply
       case Returns(o) => o.result.FAILED? ==> !c.accepted
       case Raises(AuthRequired) => !c.sent
       case Raises(Transient(_)) => true
       case Raises(Permanent(_)) => !c.accepted
       case Raises(Other(_)) => !c.sent
  }

  /** How the login guard ended: normally, or with `login_busy` or `login_failed`. */
  datatype Login = LoggedIn | LoginRaised(code: string)

  const PROVIDER_ANSWER_CODES: set<string> :=
    {"price_mismatch", "package_mismatch", "period_unavailable", "not_found", "not_eligible", "provider_error"}

  /** A charge call against an adapter whose `n`-th call behaves as `adapter(n)`. */
  class ChargeCall {
    const adapter: nat -> Call
    const enabled: bool
    const login: Login
    var made: nat
    var mayHaveSent: bool

    constructor (adapter: nat -> Call, enabled: bool, login: Login)
      ensures this.adapter == adapter && this.enabled == enabled && this.login == login
      ensures made == 0 && !mayHaveSent
    {
      this.adapter, this.enabled, this.login := adapter, enabled, login;
      made, mayHaveSent := 0, false;
    }

    method Attempt() returns (r: Reply)
      modifies this
      ensures made == old(made) + 1 && r == adapter(old(made)).reply
      ensures mayHaveSent == (old(mayHaveSent) || (r.Raises? && r.error.Transient?))
    {
      r := adapter(made).reply;
      made := made + 1;
      if r.Raises? && r.error.Transient? {
        mayHaveSent := true;
      }
    }

    /** Call once; on `AuthRequired` log in and call once more. */
    method RunAuthenticated() returns (r: Reply)
      requires made == 0 && !mayHaveSent
      modifies this
      ensures made == CallsMade(adapter, enabled, login)
      ensures made <= 2 && (made == 2 ==> adapter(0).reply == Raises(AuthRequired) && login.LoggedIn?)
      ensures r == Answer(adapter, enabled, login)
      ensures mayHaveSent == (exists k :: 0 <= k < made && RaisesTransient(adapter(k)))
    {
      if !enabled {
        return Raises(Permanent("provider_disabled"));
      }
      r := Attempt();
      assert RaisesTransient(adapter(0)) <==> mayHaveSent;
      if r != Raises(AuthRequired) {
        return;
      }
      if login.LoginRaised? {
        return Raises(Transient(login.code));
      }
      r := Attempt();
      assert RaisesTransient(adapter(1)) <==> mayHaveSent;
    }

    method ChargeOnce() returns (o: ChargeOutcome)
      requires made == 0 && !mayHaveSent
      modifies this
      ensures made == CallsMade(adapter, enabled, login)
      ensures made <= 2 && (made == 2 ==> adapter(0).reply == Raises(AuthRequired) && login.LoggedIn?)
      ensures o == Charged(adapter, enabled, login)
      ensures made > 0 && adapter(made - 1).reply.Returns? ==> o == adapter(made - 1).reply.outcome
      ensures o.result.SUCCESS? ==> made > 0 && adapter(made - 1).reply.Returns? && adapter(made - 1).reply.outcome.result.SUCCESS?
    {
      var r := RunAuthenticated();
      match r
      case Returns(outcome) => return outcome;
      case Raises(Permanent(code)) =>
        return ChargeOutcome(FAILED, code, mayHaveSent, !mayHaveSent && code in PROVIDER_ANSWER_CODES);
      case Raises(error) =>
        if !mayHaveSent {
          return ChargeOutcome(FAILED, "not_sent:" + NotSentCode(error), false, false);
        }
        return ChargeOutcome(UNVERIFIED, ErrorText(error), true, false);
    }
  }

  ghost predicate RaisesTransient(c: Call) {
    c.reply.Raises? && c.reply.error.Transient?
  }

  function ErrorText(e: Error): string {
    match e
    case AuthRequired => "AuthRequired"
    case Transient(code) => code
    case Permanent(code) => code
    case Other(name) => name
  }

  function NotSentCode(e: Error): string {
    match e
    case AuthRequired => "auth_required"
    case Transient(code) => code
    case Permanent(code) => "PermanentError"
    case Other(name) => name
  }

  // ---- what one charge amounts to ----------------------------------------------

  predicate Retries(adapter: nat -> Call, login: Login) {
    adapter(0).reply == Raises(AuthRequired) && login.LoggedIn?
  }

  function CallsMade(adapter: nat -> Call, enabled: bool, login: Login): nat {
    if !enabled then 0 else if Retries(adapter, login) then 2 else 1
  }

  /** What the caller of `run_authenticated` sees. */
  function Answer(adapter: nat -> Call, enabled: bool, login: Login): Reply {
    if !enabled then Raises(Permanent("provider_disabled"))
    else if adapter(0).reply != Raises(AuthRequired) then adapter(0).reply
    else if login.LoginRaised? then Raises(Transient(login.code))
    else adapter(1).reply
  }

  function Charged(adapter: nat -> Call, enabled: bool, login: Login): ChargeOutcome {
    match Answer(adapter, enabled, login)
    case Returns(outcome) => outcome
    case Raises(Permanent(code)) => ChargeOutcome(FAILED, code, false, code in PROVIDER_ANSWER_CODES)
    case Raises(error) =>
      if CallsMade(adapter, enabled, login) > 0
         && adapter(CallsMade(adapter, enabled, login) - 1).reply == Raises(error) && error.Transient?
      then ChargeOutcome(UNVERIFIED, ErrorText(error), true, false)
      else ChargeOutcome(FAILED, "not_sent:" + NotSentCode(error), false, false)
  }

  /** The exceptions of a charge, as the caller sees them: what is reported when the last call, or the guard, raised. */
  predicate ReportsError(o: ChargeOutcome, e: Error, byAdapter: bool) {
    match e
    case Permanent(code) => o == ChargeOutcome(FAILED, code, false, code in PROVIDER_ANSWER_CODES)
    case Transient(code) =>
      o == (if byAdapter then ChargeOutcome(UNVERIFIED, code, true, false) else ChargeOutcome(FAILED, "not_sent:" + code, false, false))
    case AuthRequired => o == ChargeOutcome(FAILED, "not_sent:auth_required", false, false)
    case Other(name) => o == ChargeOutcome(FAILED, "not_sent:" + name, false, false)
  }

  /**
   * What a charge reports, call by call. A disabled account is refused before any call. The one
   * call made, or the second after `AuthRequired` and a login, decides: its outcome is passed on
   * unchanged, its exception is reported. A login that fails after `AuthRequired` was not sent.
   */
  lemma ChargeReports(adapter: nat -> Call, enabled: bool, login: Login)
    ensures var o, made := Charged(adapter, enabled, login), CallsMade(adapter, enabled, login);
            && made == (if !enabled then 0 else if adapter(0).reply == Raises(AuthRequired) && login.LoggedIn? then 2 else 1)
            && (made == 0 ==> ReportsError(o, Permanent("provider_disabled"), false))
            && (made > 0 ==>
                  match adapter(made - 1).reply
                  case Returns(outcome) => o == outcome
                  case Raises(e) =>
                    if e.AuthRequired? && login.LoginRaised? then ReportsError(o, Transient(login.code), false) else ReportsError(o, e, true))
  {
  }

  /** A charge succeeds exactly when the last call made returned success; no error turns into one. */
  lemma SuccessIsTheAdapters(adapter: nat -> Call, enabled: bool, login: Login)
    ensures var made := CallsMade(adapter, enabled, login);
            Charged(adapter, enabled, login).result.SUCCESS?
            <==> made > 0 && adapter(made - 1).reply.Returns? && adapter(made - 1).reply.outcome.result.SUCCESS?
  {
    ChargeReports(adapter, enabled, login);
  }

  function RequestsSent(adapter: nat -> Call, n: nat): nat {
    if n == 0 then 0 else RequestsSent(adapter, n - 1) + (if adapter(n - 1).sent then 1 else 0)
  }

  ghost predicate AnyAccepted(adapter: nat -> Call, n: nat) {
    exists k :: 0 <= k < n && adapter(k).accepted
  }

  /** Under the contract, one charge sends at most one request, whatever the login does. */
  lemma AtMostOneRequest(adapter: nat -> Call, enabled: bool, login: Login)
    requires forall n :: Obeys(adapter(n))
    ensures RequestsSent(adapter, CallsMade(adapter, enabled, login)) <= 1
  {
    assert Obeys(adapter(0)) && Obeys(adapter(1));
    assert RequestsSent(adapter, 1) == if adapter(0).sent then 1 else 0;
    assert RequestsSent(adapter, 2) == RequestsSent(adapter, 1) + (if adapter(1).sent then 1 else 0);
  }

  /** Under the contract, FAILED is never reported for a charge the provider may have accepted. */
  lemma FailedMeansNotAccepted(adapter: nat -> Call, enabled: bool, login: Login)
    requires forall n :: Obeys(adapter(n))
    requires Charged(adapter, enabled, login).result.FAILED?
    ensures !AnyAccepted(adapter, CallsMade(adapter, enabled, login))
  {
    assert Obeys(adapter(0)) && Obeys(adapter(1));
  }

  /** An error ends in UNVERIFIED exactly when the adapter itself raised `TransientError`. */
  lemma UnverifiedExactlyOnAdapterTransient(adapter: nat -> Call, enabled: bool, login: Login)
    requires Answer(adapter, enabled, login).Raises?
    ensures var o, made := Charged(adapter, enabled, login), CallsMade(adapter, enabled, login);
            && !o.result.SUCCESS?
            && (o.result.UNVERIFIED? <==> exists k :: 0 <= k < made && RaisesTransient(adapter(k)))
            && (o.result.FAILED? ==> !o.reachedProvider)
  {
    var made := CallsMade(adapter, enabled, login);
    if made > 0 {
      assert RaisesTransient(adapter(made - 1)) || !RaisesTransient(adapter(made - 1));
    }
  }

  /** A request that the provider answered with a refusal, raised as `PermanentError`. */
  ghost predicate AnsweredRefusal(c: Call) {
    c.sent && c.reply.Raises? && c.reply.error.Permanent?
  }

  /**
   * `reached_provider` is documented as false when no request reached the provider. On raised errors
   * it says so exactly when the last call was no refusal the provider had answered, and no
   * `TransientError` raised before anything was sent.
   */
  lemma ReachedProviderIsRightIff(adapter: nat -> Call, login: Login)
    requires forall n :: Obeys(adapter(n))
    requires Answer(adapter, true, login).Raises?
    ensures var made := CallsMade(adapter, true, login); var last := adapter(made - 1);
            (Charged(adapter, true, login).reachedProvider <==> RequestsSent(adapter, made) > 0)
            <==> (if RaisesTransient(last) then last.sent else !AnsweredRefusal(last))
  {
    assert Obeys(adapter(0)) && Obeys(adapter(1));
    assert RequestsSent(adapter, 1) == if adapter(0).sent then 1 else 0;
    assert RequestsSent(adapter, 2) == RequestsSent(adapter, 1) + (if adapter(1).sent then 1 else 0);
  }

  /** The code clears the flag when a provider answered with a refusal. */
  lemma RefusalClearsReachedProvider(adapter: nat -> Call)
    requires forall n :: adapter(n) == Call(Raises(Permanent("not_eligible")), true, false)
    ensures Obeys(adapter(0)) && adapter(0).sent
    ensures !Charged(adapter, true, LoggedIn).reachedProvider && RequestsSent(adapter, CallsMade(adapter, true, LoggedIn)) > 0
    ensures Charged(adapter, true, LoggedIn).employeeOnly
  {
    assert adapter(0).reply == Raises(Permanent("not_eligible"));
    assert AnsweredRefusal(adapter(0));
    ReachedProviderIsRightIff(adapter, LoggedIn);
  }

  // ---- refresh with retries inside a budget ----------------------------------------

  const REFRESH_ATTEMPTS := 3
  const RETRY_DELAYS: seq<Millis> := [1_000, 2_000]
  const SYNC_BUDGET: Millis := 45_000
  const LOCK_WAIT_WEB: Millis := 40_000
  const LOCK_WAIT_WORKER: Millis := 180_000
  const NO_RETRY_CODES: set<string> := {"login_busy", "login_failed"}

  /** The login lock wait handed to an attempt that starts at `now`. */
  function LockWait(now: Millis, deadline: Millis, budget: Millis): (wait: Millis)
    ensures wait <= (if budget > SYNC_BUDGET then LOCK_WAIT_WORKER else LOCK_WAIT_WEB)
    ensures now <= deadline ==> now + wait <= deadline
    ensures now >= deadline ==> wait == 0
    ensures wait == (if budget > SYNC_BUDGET then LOCK_WAIT_WORKER else LOCK_WAIT_WEB) || now + wait == deadline || now >= deadline
  {
    var cap := if budget > SYNC_BUDGET then LOCK_WAIT_WORKER else LOCK_WAIT_WEB;
    var left := deadline - now;
    if left < 0 then 0 else if left < cap then left else cap
  }

  datatype RefreshReply = Fresh | RefreshRaised(error: Error)

  /** `attempts` is recorded on the response whether or not it carries an error. */
  datatype Response = Response(error: Option<string>, attempts: nat)

  predicate Retryable(r: RefreshReply) {
    r.RefreshRaised? && r.error.Transient? && r.error.code !in NO_RETRY_CODES
  }

  /** The moment the next attempt starts: the cost of attempt `k` and its fixed delay after its start. */
  function NextStart(started: Millis, k: nat, cost: nat -> Millis): Millis
    requires k < |RETRY_DELAYS|
  {
    started + cost(k) + RETRY_DELAYS[k]
  }

  /** Attempts start within the budget, and each after the first follows a retryable failure by its delay. */
  ghost predicate Paced(starts: seq<Millis>, start: Millis, deadline: Millis, reply: nat -> RefreshReply, cost: nat -> Millis) {
    && |starts| <= REFRESH_ATTEMPTS
    && (forall k :: 0 <= k < |starts| ==> start <= starts[k] < deadline)
    && (forall k :: 0 <= k < |starts| - 1 ==> Retryable(reply(k)) && starts[k + 1] == NextStart(starts[k], k, cost))
  }

  /** A temporary failure that is no failure of the login. */
  predicate Temporary(r: RefreshReply) {
    r.RefreshRaised? && r.error.Transient? && r.error.code != "login_busy" && r.error.code != "login_failed"
  }

  /** Only temporary failures are tried again, every one of them is, after one second and then after two. */
  lemma RetriesAreSpaced(starts: seq<Millis>, start: Millis, deadline: Millis, reply: nat -> RefreshReply, cost: nat -> Millis)
    requires Paced(starts, start, deadline, reply, cost)
    ensures |starts| <= 3
    ensures forall k :: 0 <= k < |starts| - 1 ==>
              Temporary(reply(k)) && starts[k + 1] == starts[k] + cost(k) + if k == 0 then 1_000 else 2_000
    ensures forall r: RefreshReply :: Retryable(r) <==> Temporary(r)
  {
  }

  /** An error is reported by its code, or by its name when it has none. */
  lemma ErrorsAreNamed(text: string)
    ensures ErrorText(Transient(text)) == text && ErrorText(Permanent(text)) == text && ErrorText(Other(text)) == text
    ensures ErrorText(AuthRequired) == "AuthRequired"
  {
  }

  lemma PacedOnce(starts: seq<Millis>, now: Millis, start: Millis, deadline: Millis, reply: nat -> RefreshReply, cost: nat -> Millis)
    requires Paced(starts, start, deadline, reply, cost) && |starts| < REFRESH_ATTEMPTS && start <= now < deadline
    requires |starts| > 0 ==> Retryable(reply(|starts| - 1)) && now == NextStart(starts[|starts| - 1], |starts| - 1, cost)
    ensures Paced(starts + [now], start, deadline, reply, cost)
  {
  }

  /**
   * Refresh at `start`: the `k`-th attempt answers `reply(k)` after `cost(k)` milliseconds and
   * raises only provider errors. `starts` lists when each attempt began.
   */
  method Refresh(start: Millis, budget: Millis, reply: nat -> RefreshReply, cost: nat -> Millis)
    returns (response: Response, starts: seq<Millis>)
    ensures response.attempts == |starts| <= REFRESH_ATTEMPTS
    ensures Paced(starts, start, start + budget, reply, cost)
    ensures budget > 0 <==> |starts| > 0
    ensures |starts| == 0 ==> response.error == Some("sync_budget_exceeded")
    ensures |starts| > 0 ==>
      var last := reply(|starts| - 1);
      response.error == (if last.Fresh? then None else Some(ErrorText(last.error)))
    ensures |starts| > 0 && Retryable(reply(|starts| - 1)) ==>
      |starts| == 3
      || NextStart(starts[|starts| - 1], |starts| - 1, cost) >= start + budget
  {
    var deadline := start + budget;
    var error := "sync_budget_exceeded";
    var now := start;
    starts := [];
    for attempt := 0 to REFRESH_ATTEMPTS
      invariant |starts| == attempt && now >= start
      invariant Paced(starts, start, deadline, reply, cost)
      invariant attempt == 0 ==> now == start && error == "sync_budget_exceeded"
      invariant attempt > 0 ==>
        && Retryable(reply(attempt - 1)) && error == ErrorText(reply(attempt - 1).error)
        && attempt <= |RETRY_DELAYS| && now == NextStart(starts[attempt - 1], attempt - 1, cost) < deadline
    {
      if now >= deadline {
        break;
      }
      PacedOnce(starts, now, start, deadline, reply, cost);
      starts := starts + [now];
      now := now + cost(attempt);
      var r := reply(attempt);
      if r.Fresh? {
        return Response(None, |starts|), starts;
      }
      error := ErrorText(r.error);
      if !r.error.Transient? {
        return Response(Some(error), |starts|), starts;
      }
      if r.error.code in NO_RETRY_CODES || attempt >= |RETRY_DELAYS| {
        break;
      }
      var delay := RETRY_DELAYS[attempt];
      if now + delay >= deadline {
        break;
      }
      now := now + delay;
    }
    response := Response(Some(error), |starts|);
  }
}

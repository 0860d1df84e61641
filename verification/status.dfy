/** The status board of the two-account restart worker: one record per region (`us`, `sg`) that
    the status check and the restart entry points rewrite from the replies they receive. */
module Status {
  import opened Common

  /** The `status` field of a record. */
  datatype Phase = Initializing | Restarting | Running | Error

  /** Why a record was marked as failed (its `lastError`). */
  datatype Fault =
    | MissingCredentials        // user name, password or app GUID not configured
    | TokenHttp(status: int)    // the status check's token request was answered with a non-OK status
    | TokenText(text: string)   // a restart's token request was answered with a non-OK reply
    | NoAccessToken             // the token reply carried no access token
    | AppHttp(status: int)      // the app lookup was answered with a non-OK status
    | RestartText(text: string) // the restart request was answered with a non-OK reply
    | Thrown(message: string)   // a request or a reply decoding threw (including a timeout)

  /** One region's record. Instants are the ISO-8601 strings the source stores. */
  datatype StatusRecord = StatusRecord(status: Phase, lastStartTime: Option<string>, lastError: Option<Fault>, appUrl: string)

  /** The two configured accounts, in configuration order. */
  datatype RegionKey = Us | Sg

  /** The board; the worker's environment may not hold one at all (`Option`). */
  datatype AppStates = AppStates(us: StatusRecord, sg: StatusRecord)

  const UsAppUrl := "https://us0.cfapps.us10-001.hana.ondemand.com/sub"
  const SgAppUrl := "https://sggudgxx.cfapps.ap21.hana.ondemand.com/sub"

  /** The board a request handler creates when none exists. */
  const InitialStates := AppStates(StatusRecord(Initializing, None, None, UsAppUrl), StatusRecord(Initializing, None, None, SgAppUrl))

  /** The public URL of the application of an account. */
  function AccountUrl(k: RegionKey): string
  {
    match k
    case Us => UsAppUrl
    case Sg => SgAppUrl
  }

  /** The other account. */
  function Other(k: RegionKey): (o: RegionKey)
    ensures o != k
  {
    match k
    case Us => Sg
    case Sg => Us
  }

  /** The record of account `k`. */
  function Get(s: AppStates, k: RegionKey): StatusRecord
  {
    match k
    case Us => s.us
    case Sg => s.sg
  }

  /** Replaces the record of account `k` and nothing else. */
  function Put(s: AppStates, k: RegionKey, rec: StatusRecord): (r: AppStates)
    ensures Get(r, k) == rec && Get(r, Other(k)) == Get(s, Other(k))
  {
    match k
    case Us => s.(us := rec)
    case Sg => s.(sg := rec)
  }

  /** The configured secrets; an unset variable is `None`. */
  datatype Secrets = Secrets(username: Option<string>, password: Option<string>, usGuid: Option<string>, sgGuid: Option<string>)

  /** The app GUID configured for account `k`. */
  function GuidOf(sec: Secrets, k: RegionKey): Option<string>
  {
    match k
    case Us => sec.usGuid
    case Sg => sec.sgGuid
  }

  /** The reply to a token request: it threw, or it came back with a status, a body text and
      (when the body decoded) an access token. */
  datatype TokenAnswer = TokenThrew(message: string) | TokenAnswered(ok: bool, status: int, text: string, accessToken: Option<string>)

  /** The reply to the app lookup: it threw, or it came back with a status, the app's state and its
      last start instant (`lifecycle.data.last_started_at`, possibly absent). */
  datatype AppAnswer = AppThrew(message: string) | AppAnswered(ok: bool, status: int, state: string, lastStartedAt: Option<string>)

  /** What a successful app lookup reports. */
  datatype AppView = AppView(state: string, lastStartedAt: Option<string>)

  /** The reply to a restart request: it threw, or it came back with an OK flag and a body text. */
  datatype RestartAnswer = RestartThrew(message: string) | RestartAnswered(ok: bool, text: string)

  /** The token reply was OK and carried an access token. */
  predicate Granted(t: TokenAnswer)
  {
    t.TokenAnswered? && t.ok && Truthy(t.accessToken)
  }

  // ---------------------------------------------------------------- status check

  /** The user name, the password and the account's app GUID are all set. */
  predicate Configured(sec: Secrets, k: RegionKey)
  {
    Truthy(sec.username) && Truthy(sec.password) && Truthy(GuidOf(sec, k))
  }

  /** What the status check sees for one account: its token and app replies and the current instant. */
  datatype CheckScript = CheckScript(token: TokenAnswer, app: AppAnswer, now: string)

  /** The status check's view of one account: the app reply, or the first fault met. */
  function Observe(sec: Secrets, k: RegionKey, token: TokenAnswer, app: AppAnswer): (r: Result<AppView, Fault>)
    ensures r.Success? <==> Configured(sec, k) && Granted(token) && app.AppAnswered? && app.ok
    ensures r.Success? ==> r.value == AppView(app.state, app.lastStartedAt)
    ensures !Configured(sec, k) ==> r == Failure(MissingCredentials)
    ensures Configured(sec, k) && token.TokenThrew? ==> r == Failure(Thrown(token.message))
    ensures Configured(sec, k) && token.TokenAnswered? && !token.ok ==> r == Failure(TokenHttp(token.status))
    ensures Configured(sec, k) && token.TokenAnswered? && token.ok && !Truthy(token.accessToken) ==>
              r == Failure(NoAccessToken)
    ensures Configured(sec, k) && Granted(token) && app.AppThrew? ==> r == Failure(Thrown(app.message))
    ensures Configured(sec, k) && Granted(token) && app.AppAnswered? && !app.ok ==> r == Failure(AppHttp(app.status))
  {
    if !Configured(sec, k) then Failure(MissingCredentials)
    else match token
      case TokenThrew(m) => Failure(Thrown(m))
      case TokenAnswered(ok, status, _, accessToken) =>
        if !ok then Failure(TokenHttp(status))
        else if !Truthy(accessToken) then Failure(NoAccessToken)
        else match app
          case AppThrew(m) => Failure(Thrown(m))
          case AppAnswered(appOk, appStatus, state, lastStartedAt) =>
            if !appOk then Failure(AppHttp(appStatus)) else Success(AppView(state, lastStartedAt))
  }

  /** Folds one account's observation into its record. */
  function CheckRecord(rec: StatusRecord, obs: Result<AppView, Fault>, now: string): (r: StatusRecord)
    ensures r.appUrl == rec.appUrl
    ensures r.status == Running <==> obs.Success? && obs.value.state == "STARTED"
    ensures r.status != Running ==> r.status == Error
    ensures obs.Success? ==> r.lastError.None? && r.lastStartTime == Some(OrElse(obs.value.lastStartedAt, now))
    ensures obs.Failure? ==> r.lastError == Some(obs.error) && r.lastStartTime == rec.lastStartTime
  {
    match obs
    case Success(a) =>
      rec.(status := if a.state == "STARTED" then Running else Error,
           lastStartTime := Some(OrElse(a.lastStartedAt, now)),
           lastError := None)
    case Failure(f) =>
      rec.(status := Error, lastError := Some(f))
  }

  /** The source's `checkApplicationStatus`: both accounts in order; without a board nothing is recorded. */
  function CheckApplicationStatus(states: Option<AppStates>, sec: Secrets, us: CheckScript, sg: CheckScript): (r: Option<AppStates>)
    ensures r.None? <==> states.None?
    ensures r.Some? ==>
              && Get(r.value, Us) == CheckRecord(Get(states.value, Us), Observe(sec, Us, us.token, us.app), us.now)
              && Get(r.value, Sg) == CheckRecord(Get(states.value, Sg), Observe(sec, Sg, sg.token, sg.app), sg.now)
  {
    match states
    case None => None
    case Some(s) =>
      var afterUs := Put(s, Us, CheckRecord(Get(s, Us), Observe(sec, Us, us.token, us.app), us.now));
      Some(Put(afterUs, Sg, CheckRecord(Get(afterUs, Sg), Observe(sec, Sg, sg.token, sg.app), sg.now)))
  }

  /** A region is shown running exactly when its credentials are set, both requests were answered
      OK with a token, and the platform reports the app as STARTED; the error is then cleared. */
  lemma CheckRunningIff(states: AppStates, sec: Secrets, us: CheckScript, sg: CheckScript, k: RegionKey)
    ensures var r := CheckApplicationStatus(Some(states), sec, us, sg).value;
            var sc := if k == Us then us else sg;
            && (Get(r, k).status == Running <==>
                  && Truthy(sec.username) && Truthy(sec.password) && Truthy(GuidOf(sec, k))
                  && Granted(sc.token) && sc.app.AppAnswered? && sc.app.ok && sc.app.state == "STARTED")
            && (Get(r, k).status == Running ==> Get(r, k).lastError.None?)
            && Get(r, k).appUrl == Get(states, k).appUrl
  {
  }

  /** A failed check marks the region as failed with the fault and keeps its last start instant and URL. */
  lemma CheckFailureKeepsFields(states: AppStates, sec: Secrets, us: CheckScript, sg: CheckScript, k: RegionKey)
    requires var sc := if k == Us then us else sg;
             Observe(sec, k, sc.token, sc.app).Failure?
    ensures var r := CheckApplicationStatus(Some(states), sec, us, sg).value;
            var sc := if k == Us then us else sg;
            && Get(r, k).status == Error
            && Get(r, k).lastError == Some(Observe(sec, k, sc.token, sc.app).error)
            && Get(r, k).lastStartTime == Get(states, k).lastStartTime
            && Get(r, k).appUrl == Get(states, k).appUrl
  {
  }

  // ---------------------------------------------------------------- restarts

  /** What a restart sees for one account: its token and restart replies and the current instant. */
  datatype AccountScript = AccountScript(token: TokenAnswer, restart: RestartAnswer, now: string)

  /** How a restart of one account ended: restarted, refused with a fault, or thrown. */
  datatype AccountResult = Done | Refused(fault: Fault) | Threw(message: string)

  /** One account's restart: the new record and the result. */
  datatype AccountStep = AccountStep(record: StatusRecord, result: AccountResult)

  /** Marks the record as restarting, requests a token and, only with a token, the restart. */
  function RestartAccount(rec: StatusRecord, k: RegionKey, sc: AccountScript): (r: AccountStep)
    ensures r.record.appUrl == AccountUrl(k)
    ensures r.result.Done? <==> Granted(sc.token) && sc.restart.RestartAnswered? && sc.restart.ok
    ensures r.result.Done? ==> r.record == StatusRecord(Running, Some(sc.now), None, AccountUrl(k))
    ensures r.result.Refused? ==> r.record.status == Error && r.record.lastError == Some(r.result.fault)
    ensures r.result.Refused? && !Granted(sc.token) ==> r.record.lastStartTime == rec.lastStartTime
    ensures r.result.Refused? && Granted(sc.token) ==>
              && sc.restart.RestartAnswered?
              && r.result.fault == RestartText(sc.restart.text)
              && r.record.lastStartTime == Some(OrElse(rec.lastStartTime, sc.now))
    ensures r.result.Threw? ==> r.record == rec.(status := Restarting, appUrl := AccountUrl(k))
    ensures r.result.Threw? <==> sc.token.TokenThrew? || (Granted(sc.token) && sc.restart.RestartThrew?)
    ensures sc.token.TokenThrew? ==> r.result == Threw(sc.token.message)
    ensures Granted(sc.token) && sc.restart.RestartThrew? ==> r.result == Threw(sc.restart.message)
    ensures sc.token.TokenAnswered? && !sc.token.ok ==> r.result == Refused(TokenText(sc.token.text))
    ensures sc.token.TokenAnswered? && sc.token.ok && !Truthy(sc.token.accessToken) ==> r.result == Refused(NoAccessToken)
  {
    var url := AccountUrl(k);
    var entering := rec.(status := Restarting, appUrl := url);
    match sc.token
    case TokenThrew(m) => AccountStep(entering, Threw(m))
    case TokenAnswered(ok, _, text, accessToken) =>
      if !ok then AccountStep(entering.(status := Error, lastError := Some(TokenText(text))), Refused(TokenText(text)))
      else if !Truthy(accessToken) then AccountStep(entering.(status := Error, lastError := Some(NoAccessToken)), Refused(NoAccessToken))
      else match sc.restart
        case RestartThrew(m) => AccountStep(entering, Threw(m))
        case RestartAnswered(restartOk, details) =>
          if restartOk then AccountStep(StatusRecord(Running, Some(sc.now), None, url), Done)
          else AccountStep(StatusRecord(Error, Some(OrElse(entering.lastStartTime, sc.now)), Some(RestartText(details)), url), Refused(RestartText(details)))
  }

  /** Without a token the restart endpoint is never called: the reply it would give changes nothing. */
  lemma TokenFailureSkipsRestart(rec: StatusRecord, k: RegionKey, t: TokenAnswer, a: RestartAnswer, b: RestartAnswer, now: string)
    requires !Granted(t)
    ensures RestartAccount(rec, k, AccountScript(t, a, now)) == RestartAccount(rec, k, AccountScript(t, b, now))
    ensures !RestartAccount(rec, k, AccountScript(t, a, now)).result.Done?
  {
  }

  /** The source's `restartSingleSAP` for account `k`: only that account's record changes. */
  function RestartSingleSap(states: Option<AppStates>, k: RegionKey, sc: AccountScript): (r: (Option<AppStates>, AccountResult))
    ensures r.0.None? <==> states.None?
    ensures states.Some? ==> Get(r.0.value, Other(k)) == Get(states.value, Other(k))
    ensures states.Some? ==> Get(r.0.value, k) == RestartAccount(Get(states.value, k), k, sc).record
    ensures r.1 == RestartAccount(if states.Some? then Get(states.value, k) else Get(InitialStates, k), k, sc).result
  {
    match states
    case None => (None, RestartAccount(Get(InitialStates, k), k, sc).result)
    case Some(s) =>
      var step := RestartAccount(Get(s, k), k, sc);
      (Some(Put(s, k, step.record)), step.result)
  }

  /** The result of a restart never depends on the record it starts from. */
  lemma ResultIgnoresRecord(a: StatusRecord, b: StatusRecord, k: RegionKey, sc: AccountScript)
    ensures RestartAccount(a, k, sc).result == RestartAccount(b, k, sc).result
  {
  }

  /** One line of the batch result: the account and how its restart ended. */
  datatype BatchLine = BatchLine(region: RegionKey, result: AccountResult)

  /** The source's `batchRestartSAP`: both URLs are set first, then both accounts are restarted; the
      result holds one line per account in account order and is never an error. */
  function BatchRestartSap(states: Option<AppStates>, us: AccountScript, sg: AccountScript): (r: (Option<AppStates>, seq<BatchLine>))
    ensures r.0.None? <==> states.None?
    ensures |r.1| == 2 && r.1[0].region == Us && r.1[1].region == Sg
  {
    var prepared := match states
      case None => None
      case Some(s) => Some(s.(us := s.us.(appUrl := UsAppUrl), sg := s.sg.(appUrl := SgAppUrl)));
    var (afterUs, usResult) := RestartSingleSap(prepared, Us, us);
    var (afterSg, sgResult) := RestartSingleSap(afterUs, Sg, sg);
    (afterSg, [BatchLine(Us, usResult), BatchLine(Sg, sgResult)])
  }

  /** The batch is the two single restarts one after the other: same board, same results. */
  lemma BatchIsTwoSingles(states: Option<AppStates>, us: AccountScript, sg: AccountScript)
    ensures var (afterUs, usResult) := RestartSingleSap(states, Us, us);
            var (afterSg, sgResult) := RestartSingleSap(afterUs, Sg, sg);
            BatchRestartSap(states, us, sg) == (afterSg, [BatchLine(Us, usResult), BatchLine(Sg, sgResult)])
  {
    if states.Some? {
      var s := states.value;
      var prepared := s.(us := s.us.(appUrl := UsAppUrl), sg := s.sg.(appUrl := SgAppUrl));
      ResultIgnoresRecord(s.us, prepared.us, Us, us);
      ResultIgnoresRecord(s.sg, prepared.sg, Sg, sg);
      assert RestartAccount(prepared.us, Us, us).record == RestartAccount(s.us, Us, us).record;
      assert RestartAccount(prepared.sg, Sg, sg).record == RestartAccount(s.sg, Sg, sg).record;
    }
  }

  /** Restarts of the two accounts touch disjoint records, so their order does not matter. */
  lemma SinglesCommute(states: AppStates, us: AccountScript, sg: AccountScript)
    ensures var a := RestartSingleSap(RestartSingleSap(Some(states), Us, us).0, Sg, sg).0;
            var b := RestartSingleSap(RestartSingleSap(Some(states), Sg, sg).0, Us, us).0;
            a == b
  {
  }
}

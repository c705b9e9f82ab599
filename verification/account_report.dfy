/** The health report of Tunnel Monitor v3.3 (`_worker.js`): the fetch
    outcome of every configured account folded into one report, and the
    decision whether the scheduled run sends it to Telegram. */
module AccountReport {

  import opened Wrappers
  import opened Observed
  import opened StrictInventory
  import opened Seqs

  /** How one account's fetch settled under `Promise.allSettled`: fulfilled
      with the tunnels and the error message the fetch caught, or rejected
      with the message of the reason. */
  datatype FetchOutcome =
    | Fulfilled(tunnels: seq<Tunnel>, error: Option<string>)
    | Rejected(message: string)

  /** One entry of `accountsData`. */
  datatype AccountData = AccountData(name: string, tunnels: seq<Tunnel>, error: Option<string>)

  /** One entry of `alertMessages`, before its Markdown formatting. */
  datatype AlertMessage =
    | ApiError(account: string, error: string)       // a fulfilled fetch that reports an error
    | RequestFailed(account: string, error: string)  // a rejected fetch
    | TunnelsDown(account: string, down: seq<Tunnel>) // the tunnels not `healthy`

  datatype Report = Report(accounts: seq<AccountData>, total: nat, healthy: nat,
                           hasError: bool, alerts: seq<AlertMessage>)

  /** The message used when a rejection carries none. */
  const UnknownError: string := "未知错误"

  /** `if (error)` tests truthiness: an empty error message is no error. */
  predicate Errored(o: FetchOutcome) {
    o.Rejected? || (o.error.Some? && o.error.value != "")
  }

  /** The tunnels an outcome contributes to the counts: none when it errored. */
  function Listed(o: FetchOutcome): seq<Tunnel> {
    if Errored(o) then [] else o.tunnels
  }

  /** An account that raises the error flag: its fetch errored or one of its tunnels is down. */
  predicate Troubled(o: FetchOutcome) {
    Errored(o) || Down(Listed(o)) != []
  }

  function Entry(name: string, o: FetchOutcome): (d: AccountData)
    ensures d.name == name
    ensures Errored(o) <==> d.error.Some?
    ensures Errored(o) ==> d.tunnels == []
    ensures !Errored(o) ==> d.tunnels == o.tunnels
  {
    match o
    case Rejected(msg) => AccountData(name, [], Some(if msg == "" then UnknownError else msg))
    case Fulfilled(ts, err) =>
      if Errored(o) then AccountData(name, [], err) else AccountData(name, ts, None)
  }

  /** The alert an account adds: one when it is troubled, none otherwise. */
  function AlertFor(name: string, o: FetchOutcome): (r: seq<AlertMessage>)
    ensures |r| == (if Troubled(o) then 1 else 0)
    ensures forall i :: 0 <= i < |r| ==> r[i].account == name
  {
    match o
    case Rejected(msg) => [RequestFailed(name, if msg == "" then UnknownError else msg)]
    case Fulfilled(ts, err) =>
      if Errored(o) then [ApiError(name, err.value)]
      else if Down(ts) != [] then [TunnelsDown(name, Down(ts))]
      else []
  }

  // ----- the fold over all accounts, stated on prefixes so that the loop can follow it -----

  function AccountsData(accounts: seq<Account>, results: seq<FetchOutcome>): (r: seq<AccountData>)
    requires |results| == |accounts|
    ensures |r| == |accounts|
  {
    if |accounts| == 0 then []
    else AccountsData(accounts[..|accounts| - 1], results[..|results| - 1])
         + [Entry(accounts[|accounts| - 1].name, results[|results| - 1])]
  }

  function Alerts(accounts: seq<Account>, results: seq<FetchOutcome>): seq<AlertMessage>
    requires |results| == |accounts|
  {
    if |accounts| == 0 then []
    else Alerts(accounts[..|accounts| - 1], results[..|results| - 1])
         + AlertFor(accounts[|accounts| - 1].name, results[|results| - 1])
  }

  /** `totalTunnels`: the tunnels of the accounts that did not error. */
  function Total(results: seq<FetchOutcome>): nat {
    if |results| == 0 then 0
    else Total(results[..|results| - 1]) + |Listed(results[|results| - 1])|
  }

  /** `healthyCount`. */
  function HealthyTotal(results: seq<FetchOutcome>): nat {
    if |results| == 0 then 0
    else HealthyTotal(results[..|results| - 1]) + HealthyCount(Listed(results[|results| - 1]))
  }

  /** The number of troubled accounts. */
  function TroubledCount(results: seq<FetchOutcome>): (n: nat)
    ensures n <= |results|
  {
    if |results| == 0 then 0
    else TroubledCount(results[..|results| - 1]) + (if Troubled(results[|results| - 1]) then 1 else 0)
  }

  /** `checkAllTunnels(config)` once the fetches have settled, `results[i]`
      being the outcome for `accounts[i]`. */
  method CheckAllTunnels(accounts: seq<Account>, results: seq<FetchOutcome>) returns (report: Report)
    requires |results| == |accounts|
    ensures report.accounts == AccountsData(accounts, results)
    ensures report.total == Total(results) && report.healthy == HealthyTotal(results)
    ensures report.hasError <==> TroubledCount(results) > 0
    ensures report.alerts == Alerts(accounts, results)
  {
    var accountsData: seq<AccountData> := [];
    var totalTunnels, healthyCount := 0, 0;
    var hasError := false;
    var alertMessages: seq<AlertMessage> := [];
    var index := 0;
    while index < |results|
      invariant 0 <= index <= |results|
      invariant Tallied(accounts, results, index, accountsData, totalTunnels, healthyCount, hasError, alertMessages)
    {
      ghost var data0, total0, healthy0, error0, alerts0 := accountsData, totalTunnels, healthyCount, hasError, alertMessages;
      accountsData, totalTunnels, healthyCount, hasError, alertMessages :=
        TallyAccount(accounts[index].name, results[index],
                     accountsData, totalTunnels, healthyCount, hasError, alertMessages);
      ReportStep(accounts, results, index, data0, total0, healthy0, error0, alerts0,
                 accountsData, totalTunnels, healthyCount, hasError, alertMessages);
      index := index + 1;
    }
    FullPrefix(accounts);
    FullPrefix(results);
    report := Report(accountsData, totalTunnels, healthyCount, hasError, alertMessages);
  }

  /** The body of the loop over the settled results: one account's entry,
      counts, error flag and alert. */
  method TallyAccount(accountName: string, result: FetchOutcome,
                      accountsData: seq<AccountData>, totalTunnels: nat, healthyCount: nat,
                      hasError: bool, alertMessages: seq<AlertMessage>)
    returns (data': seq<AccountData>, total': nat, healthy': nat, hasError': bool, alerts': seq<AlertMessage>)
    ensures data' == accountsData + [Entry(accountName, result)]
    ensures total' == totalTunnels + |Listed(result)|
    ensures healthy' == healthyCount + HealthyCount(Listed(result))
    ensures hasError' <==> hasError || Troubled(result)
    ensures alerts' == alertMessages + AlertFor(accountName, result)
  {
    data', total', healthy', hasError', alerts' := accountsData, totalTunnels, healthyCount, hasError, alertMessages;
    match result {
      case Fulfilled(tunnels, error) =>
        if Errored(result) {
          hasError' := true;
          data' := data' + [AccountData(accountName, [], error)];
          alerts' := alerts' + [ApiError(accountName, error.value)];
        } else {
          total' := total' + |tunnels|;
          healthy' := healthy' + HealthyCount(tunnels);
          var downTunnels := Down(tunnels);
          if |downTunnels| > 0 {
            hasError' := true;
            alerts' := alerts' + [TunnelsDown(accountName, downTunnels)];
          } else {
            AppendEmpty(alerts');
          }
          data' := data' + [AccountData(accountName, tunnels, None)];
        }
      case Rejected(message) =>
        hasError' := true;
        var errorMsg := if message == "" then UnknownError else message;
        data' := data' + [AccountData(accountName, [], Some(errorMsg))];
        alerts' := alerts' + [RequestFailed(accountName, errorMsg)];
    }
  }

  /** The accumulators of the loop after the first `n` accounts. */
  ghost predicate Tallied(accounts: seq<Account>, results: seq<FetchOutcome>, n: nat,
                          data: seq<AccountData>, total: nat, healthy: nat, hasError: bool,
                          alerts: seq<AlertMessage>)
    requires |results| == |accounts| && n <= |accounts|
  {
    && data == AccountsData(accounts[..n], results[..n])
    && total == Total(results[..n])
    && healthy == HealthyTotal(results[..n])
    && (hasError <==> TroubledCount(results[..n]) > 0)
    && alerts == Alerts(accounts[..n], results[..n])
  }

  /** One more account in the fold: its entry, its alert and its counts. */
  lemma ReportStep(accounts: seq<Account>, results: seq<FetchOutcome>, i: nat,
                   data: seq<AccountData>, total: nat, healthy: nat, hasError: bool, alerts: seq<AlertMessage>,
                   data': seq<AccountData>, total': nat, healthy': nat, hasError': bool, alerts': seq<AlertMessage>)
    requires |results| == |accounts| && i < |accounts|
    requires Tallied(accounts, results, i, data, total, healthy, hasError, alerts)
    requires data' == data + [Entry(accounts[i].name, results[i])]
    requires total' == total + |Listed(results[i])|
    requires healthy' == healthy + HealthyCount(Listed(results[i]))
    requires hasError' <==> hasError || Troubled(results[i])
    requires alerts' == alerts + AlertFor(accounts[i].name, results[i])
    ensures Tallied(accounts, results, i + 1, data', total', healthy', hasError', alerts')
  {
    PrefixStep(accounts, i);
    PrefixStep(results, i);
  }

  // ----- what the report promises -----

  /** `stats.healthy <= stats.total`. */
  lemma {:induction false} HealthyAtMostTotal(results: seq<FetchOutcome>)
    ensures HealthyTotal(results) <= Total(results)
  {
    if |results| > 0 {
      HealthyAtMostTotal(results[..|results| - 1]);
    }
  }

  /** An account whose fetch errored contributes no tunnel to `total`:
      dropping it leaves the total unchanged. */
  lemma {:induction false} ErroredAddsNothing(results: seq<FetchOutcome>, o: FetchOutcome)
    requires Errored(o)
    ensures Total(results + [o]) == Total(results)
    ensures HealthyTotal(results + [o]) == HealthyTotal(results)
  {
    assert (results + [o])[..|results|] == results;
  }

  /** One entry per configured account, in configuration order, named after
      it; an errored account carries no tunnels and its error. */
  lemma {:induction false} AccountsDataFollowAccounts(accounts: seq<Account>, results: seq<FetchOutcome>, i: nat)
    requires |results| == |accounts| && i < |accounts|
    ensures AccountsData(accounts, results)[i] == Entry(accounts[i].name, results[i])
    ensures AccountsData(accounts, results)[i].name == accounts[i].name
    ensures Errored(results[i]) ==> AccountsData(accounts, results)[i].tunnels == []
  {
    var n := |accounts|;
    if i < n - 1 {
      AccountsDataFollowAccounts(accounts[..n - 1], results[..n - 1], i);
    }
  }

  /** Each troubled account adds exactly one alert, every other account none. */
  lemma {:induction false} OneAlertPerTroubledAccount(accounts: seq<Account>, results: seq<FetchOutcome>)
    requires |results| == |accounts|
    ensures |Alerts(accounts, results)| == TroubledCount(results)
  {
    if |accounts| > 0 {
      OneAlertPerTroubledAccount(accounts[..|accounts| - 1], results[..|results| - 1]);
    }
  }

  /** The error flag is raised exactly when some account is troubled, that
      is exactly when there is an alert to send. */
  lemma {:induction false} ErrorFlagIffAlerts(accounts: seq<Account>, results: seq<FetchOutcome>)
    requires |results| == |accounts|
    ensures (exists i :: 0 <= i < |results| && Troubled(results[i])) <==> |Alerts(accounts, results)| > 0
    ensures TroubledCount(results) > 0 <==> |Alerts(accounts, results)| > 0
  {
    OneAlertPerTroubledAccount(accounts, results);
    TroubledCountPositive(results);
  }

  lemma {:induction false} TroubledCountPositive(results: seq<FetchOutcome>)
    ensures TroubledCount(results) > 0 <==> exists i :: 0 <= i < |results| && Troubled(results[i])
  {
    if |results| > 0 {
      var init := results[..|results| - 1];
      TroubledCountPositive(init);
      assert forall i :: 0 <= i < |init| ==> init[i] == results[i];
    }
  }

  // ----- the scheduled notification (`handleScheduled`) -----

  /** `telegram.enabled`: both the bot token and the chat id are set and non-empty. */
  function TelegramEnabled(botToken: Option<string>, chatId: Option<string>): (on: bool)
    ensures botToken.None? || chatId.None? ==> !on
    ensures botToken == Some("") || chatId == Some("") ==> !on
    ensures botToken.Some? && chatId.Some? && botToken.value != "" && chatId.value != "" ==> on
  {
    botToken.Some? && botToken.value != "" && chatId.Some? && chatId.value != ""
  }

  /** The alerts the scheduled run sends (joined by newlines into one
      Telegram message), or nothing. */
  function ScheduledMessage(alertOnlyOnError: bool, telegramEnabled: bool, report: Report): (r: Option<seq<AlertMessage>>)
    ensures alertOnlyOnError && !report.hasError ==> r.None?
    ensures r.Some? <==> (report.hasError || !alertOnlyOnError) && report.alerts != [] && telegramEnabled
    ensures r.Some? ==> r.value == report.alerts
  {
    if alertOnlyOnError && !report.hasError then None
    else if |report.alerts| > 0 && telegramEnabled then Some(report.alerts)
    else None
  }

  /** The setting as `validateConfig` reads it: any value but the text
      `false`, including none at all, keeps a run without errors silent;
      `false` lets an alert-free report through to the alert check. */
  lemma AlertOnlyOnErrorSetting(setting: Option<string>, telegramEnabled: bool, report: Report)
    ensures setting != Some("false") && !report.hasError ==> ScheduledMessage(AlertOnlyOnError(setting), telegramEnabled, report).None?
    ensures setting == Some("false") ==>
              (ScheduledMessage(AlertOnlyOnError(setting), telegramEnabled, report).Some?
               <==> report.alerts != [] && telegramEnabled)
  {
  }

  /** On a report `CheckAllTunnels` produced, the `ALERT_ONLY_ON_ERROR`
      setting changes nothing: a report with alerts always has its error
      flag raised, and one without alerts is never sent. */
  lemma AlertOnlyOnErrorIsRedundant(accounts: seq<Account>, results: seq<FetchOutcome>, report: Report, telegramEnabled: bool)
    requires |results| == |accounts|
    requires report.alerts == Alerts(accounts, results)
    requires report.hasError <==> TroubledCount(results) > 0
    ensures ScheduledMessage(true, telegramEnabled, report) == ScheduledMessage(false, telegramEnabled, report)
  {
    ErrorFlagIffAlerts(accounts, results);
  }
}

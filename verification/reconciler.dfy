/** The reconciliation of Tunnel Monitor v10.0 (`_worker-1.0.js`): the
    configured tunnels are grouped by Cloudflare account, every account's
    tunnels are fetched once, and what the API reports is merged with the
    configuration into the dashboard list and its counts. */
module Reconciler {

  import opened Wrappers
  import opened Seqs
  import opened Observed
  import opened Inventory

  /** One value of `accountsMap`: an account and its configured tunnels. */
  datatype AccountCtx = AccountCtx(accountId: string, apiToken: string, accountName: string,
                                   configTunnels: seq<TunnelConfig>)

  /** How an account's fetch settled. `fetchAccountData` catches its own
      failures and reports them in `error`; a rejection is kept because the
      loop tests for it. */
  datatype FetchOutcome =
    | Fulfilled(apiData: seq<Tunnel>, error: Option<string>)
    | Rejected

  /** One entry of the merged list. */
  datatype Observation = Observation(name: string, id: string, status: string, accountName: string,
                                     githubOwner: Option<string>, githubRepo: Option<string>)

  datatype Stats = Stats(total: nat, healthy: nat)

  datatype Reconciled = Reconciled(tunnels: seq<Observation>, stats: Stats)

  // ----- grouping the configuration by account -----

  /** The account ids of the groups, in insertion order. */
  function Ids(groups: seq<AccountCtx>): (r: seq<string>)
    ensures |r| == |groups| && forall k :: 0 <= k < |groups| ==> r[k] == groups[k].accountId
  {
    seq(|groups|, k requires 0 <= k < |groups| => groups[k].accountId)
  }

  /** `accountsMap.has(id)` / `accountsMap.get(id)`: the position of the group of an account. */
  function FindGroup(groups: seq<AccountCtx>, id: string): (r: Option<nat>)
    ensures r.Some? ==> r.value < |groups| && groups[r.value].accountId == id
    ensures r.None? <==> id !in Ids(groups)
  {
    if |groups| == 0 then None
    else if groups[0].accountId == id then Some(0)
    else
      match FindGroup(groups[1..], id)
      case None => None
      case Some(k) => Some(k + 1)
  }

  /** A group keeps the token and alias of the tunnel that opened it. */
  predicate OpenedByFirst(g: AccountCtx) {
    |g.configTunnels| > 0 && g.configTunnels[0].accountId == g.accountId
    && g.configTunnels[0].apiToken == g.apiToken && g.configTunnels[0].accountName == g.accountName
  }

  /** One turn of the `forEach` that fills `accountsMap`: a tunnel of a new
      account opens a group with that tunnel's token and alias; the tunnel
      joins the group of its account. */
  function AddTunnel(groups: seq<AccountCtx>, t: TunnelConfig): (r: seq<AccountCtx>)
    ensures |r| <= |groups| + 1
  {
    match FindGroup(groups, t.accountId)
    case None => groups + [AccountCtx(t.accountId, t.apiToken, t.accountName, [t])]
    case Some(k) => groups[k := groups[k].(configTunnels := groups[k].configTunnels + [t])]
  }

  /** `accountsMap` after the given tunnels. */
  function Grouped(tunnels: seq<TunnelConfig>): (groups: seq<AccountCtx>)
    ensures |groups| <= |tunnels|
  {
    if |tunnels| == 0 then [] else AddTunnel(Grouped(tunnels[..|tunnels| - 1]), tunnels[|tunnels| - 1])
  }

  /** Grouping one more tunnel of the list is one more turn of `AddTunnel`. */
  lemma GroupedStep(tunnels: seq<TunnelConfig>, i: nat, before: seq<AccountCtx>, after: seq<AccountCtx>)
    requires i < |tunnels| && before == Grouped(tunnels[..i]) && after == AddTunnel(before, tunnels[i])
    ensures after == Grouped(tunnels[..i + 1])
  {
    PrefixStep(tunnels, i);
  }

  /** The tunnels of one account, in configuration order. */
  function OfAccount(tunnels: seq<TunnelConfig>, id: string): (r: seq<TunnelConfig>)
    ensures forall i :: 0 <= i < |r| ==> r[i].accountId == id
  {
    if |tunnels| == 0 then []
    else OfAccount(tunnels[..|tunnels| - 1], id)
         + (if tunnels[|tunnels| - 1].accountId == id then [tunnels[|tunnels| - 1]] else [])
  }

  /** The `forEach` that fills `accountsMap`. */
  method GroupAccounts(tunnels: seq<TunnelConfig>) returns (groups: seq<AccountCtx>)
    ensures groups == Grouped(tunnels)
  {
    groups := [];
    for i := 0 to |tunnels|
      invariant groups == Grouped(tunnels[..i])
    {
      var t := tunnels[i];
      ghost var before := groups;
      var k := FindGroup(groups, t.accountId);
      ghost var isNew := k.None?;
      if k.None? {
        groups := groups + [AccountCtx(t.accountId, t.apiToken, t.accountName, [])];
        k := Some(|groups| - 1);
      }
      var g := groups[k.value];
      groups := groups[k.value := g.(configTunnels := g.configTunnels + [t])];
      if isNew {
        EmptyAppend([t]);
        SnocUpdate(before, AccountCtx(t.accountId, t.apiToken, t.accountName, []),
                   AccountCtx(t.accountId, t.apiToken, t.accountName, [t]));
      }
      assert groups == AddTunnel(before, t);
      GroupedStep(tunnels, i, before, groups);
    }
    FullPrefix(tunnels);
  }

  /** Every configured account has a group, and no account has two. */
  lemma {:induction false} GroupedIds(tunnels: seq<TunnelConfig>)
    ensures forall j :: 0 <= j < |tunnels| ==> tunnels[j].accountId in Ids(Grouped(tunnels))
    ensures forall k, l :: 0 <= k < l < |Grouped(tunnels)| ==> Grouped(tunnels)[k].accountId != Grouped(tunnels)[l].accountId
  {
    if |tunnels| > 0 {
      var init := tunnels[..|tunnels| - 1];
      var t := tunnels[|tunnels| - 1];
      GroupedIds(init);
      var g := Grouped(init);
      forall j | 0 <= j < |tunnels| ensures tunnels[j].accountId in Ids(AddTunnel(g, t)) {
        if j < |init| {
          assert init[j] == tunnels[j];
          AddTunnelKeepsIds(g, t, tunnels[j].accountId);
        } else {
          AddTunnelAddsId(g, t);
        }
      }
      AddTunnelKeepsDistinct(g, t);
    }
  }

  /** An account that has a group keeps it when a tunnel is added. */
  lemma AddTunnelKeepsIds(groups: seq<AccountCtx>, t: TunnelConfig, id: string)
    requires id in Ids(groups)
    ensures id in Ids(AddTunnel(groups, t))
  {
    var k := FindGroup(groups, id).value;
    assert Ids(AddTunnel(groups, t))[k] == id;
  }

  /** The account of an added tunnel has a group afterwards. */
  lemma AddTunnelAddsId(groups: seq<AccountCtx>, t: TunnelConfig)
    ensures t.accountId in Ids(AddTunnel(groups, t))
  {
    match FindGroup(groups, t.accountId)
    case Some(k) =>
      assert Ids(AddTunnel(groups, t))[k] == t.accountId;
    case None =>
      assert Ids(AddTunnel(groups, t))[|groups|] == t.accountId;
  }

  /** Adding a tunnel never gives two groups the same account. */
  lemma AddTunnelKeepsDistinct(groups: seq<AccountCtx>, t: TunnelConfig)
    requires forall k, l :: 0 <= k < l < |groups| ==> groups[k].accountId != groups[l].accountId
    ensures var r := AddTunnel(groups, t);
            forall k, l :: 0 <= k < l < |r| ==> r[k].accountId != r[l].accountId
  {
    var r := AddTunnel(groups, t);
    forall k, l | 0 <= k < l < |r| ensures r[k].accountId != r[l].accountId {
      if l == |groups| {
        assert Ids(groups)[k] == groups[k].accountId;
      }
    }
  }

  /** A tunnel of an account without a group opens one, with that tunnel's
      token and alias; every existing group keeps its account, token and
      alias, so the first tunnel of an account decides them. */
  lemma AddTunnelShape(groups: seq<AccountCtx>, t: TunnelConfig)
    ensures var r := AddTunnel(groups, t);
            |r| == (if t.accountId in Ids(groups) then |groups| else |groups| + 1)
            && (t.accountId !in Ids(groups) ==> r[|groups|] == AccountCtx(t.accountId, t.apiToken, t.accountName, [t]))
            && forall k :: 0 <= k < |groups| ==>
                 r[k].accountId == groups[k].accountId && r[k].apiToken == groups[k].apiToken
                 && r[k].accountName == groups[k].accountName
  {
  }

  /** Adding a tunnel keeps every group tied to the tunnel that opened it. */
  lemma AddTunnelKeepsOpeners(groups: seq<AccountCtx>, t: TunnelConfig)
    requires forall k :: 0 <= k < |groups| ==> OpenedByFirst(groups[k])
    ensures forall k :: 0 <= k < |AddTunnel(groups, t)| ==> OpenedByFirst(AddTunnel(groups, t)[k])
  {
  }

  /** Every group of `accountsMap` carries the token and alias of the first
      configured tunnel of its account. */
  lemma {:induction false} GroupedOpenedByFirst(tunnels: seq<TunnelConfig>)
    ensures forall k :: 0 <= k < |Grouped(tunnels)| ==> OpenedByFirst(Grouped(tunnels)[k])
  {
    if |tunnels| > 0 {
      GroupedOpenedByFirst(tunnels[..|tunnels| - 1]);
      AddTunnelKeepsOpeners(Grouped(tunnels[..|tunnels| - 1]), tunnels[|tunnels| - 1]);
    }
  }

  lemma {:induction false} OfAccountNone(tunnels: seq<TunnelConfig>, id: string)
    requires forall j :: 0 <= j < |tunnels| ==> tunnels[j].accountId != id
    ensures OfAccount(tunnels, id) == []
  {
    if |tunnels| > 0 {
      OfAccountNone(tunnels[..|tunnels| - 1], id);
    }
  }

  /** The tunnels of an account among a non-empty list: those of the list's
      front, and the last tunnel when it belongs to the account. */
  lemma OfAccountStep(tunnels: seq<TunnelConfig>, id: string)
    requires |tunnels| > 0
    ensures var t := tunnels[|tunnels| - 1];
            OfAccount(tunnels, id)
            == if t.accountId == id then OfAccount(tunnels[..|tunnels| - 1], id) + [t]
               else OfAccount(tunnels[..|tunnels| - 1], id)
  {
    AppendEmpty(OfAccount(tunnels[..|tunnels| - 1], id));
  }

  /** Each group holds exactly the tunnels of its account, in configuration
      order, and takes its token and alias from the first of them. */
  lemma {:induction false} GroupedMembers(tunnels: seq<TunnelConfig>)
    ensures forall k :: 0 <= k < |Grouped(tunnels)| ==>
              var g := Grouped(tunnels)[k];
              g.configTunnels == OfAccount(tunnels, g.accountId) && g.configTunnels != []
              && g.apiToken == g.configTunnels[0].apiToken && g.accountName == g.configTunnels[0].accountName
  {
    if |tunnels| > 0 {
      var init := tunnels[..|tunnels| - 1];
      var t := tunnels[|tunnels| - 1];
      GroupedMembers(init);
      GroupedIds(init);
      var g := Grouped(init);
      var g' := Grouped(tunnels);
      var found := FindGroup(g, t.accountId);
      if found.None? {
        assert forall j :: 0 <= j < |init| ==> init[j].accountId != t.accountId by {
          forall j | 0 <= j < |init| ensures init[j].accountId != t.accountId {
            assert init[j].accountId in Ids(g);
          }
        }
        OfAccountNone(init, t.accountId);
      }
      forall k | 0 <= k < |g'|
        ensures g'[k].configTunnels == OfAccount(tunnels, g'[k].accountId) && g'[k].configTunnels != []
        ensures g'[k].apiToken == g'[k].configTunnels[0].apiToken
        ensures g'[k].accountName == g'[k].configTunnels[0].accountName
      {
        OfAccountStep(tunnels, g'[k].accountId);
        if found.None? {
          if k < |g| {
            assert g'[k] == g[k] && g[k].accountId != t.accountId;
          } else {
            assert g'[k] == AccountCtx(t.accountId, t.apiToken, t.accountName, [t]);
          }
        } else if k != found.value {
          assert g'[k] == g[k] && g[k].accountId != t.accountId;
        } else {
          assert g'[k].configTunnels == g[k].configTunnels + [t];
        }
      }
    }
  }

  // ----- merging what the API reports with the configuration -----

  /** `new Map(configTunnels.map(t => [t.name, t]))`: a later entry overrides an earlier one. */
  function ConfigMap(configTunnels: seq<TunnelConfig>): map<string, TunnelConfig> {
    if |configTunnels| == 0 then map[]
    else
      var c := configTunnels[|configTunnels| - 1];
      ConfigMap(configTunnels[..|configTunnels| - 1])[c.name := c]
  }

  /** A name is in the map exactly when a configured tunnel has it, and maps
      to the last such tunnel. */
  lemma {:induction false} ConfigMapLastWins(configTunnels: seq<TunnelConfig>, name: string)
    ensures name in ConfigMap(configTunnels) <==> exists i :: 0 <= i < |configTunnels| && configTunnels[i].name == name
    ensures name in ConfigMap(configTunnels) ==>
              exists i :: 0 <= i < |configTunnels| && ConfigMap(configTunnels)[name] == configTunnels[i]
                          && name == configTunnels[i].name
                          && forall j :: i < j < |configTunnels| ==> configTunnels[j].name != name
  {
    if |configTunnels| > 0 {
      var init := configTunnels[..|configTunnels| - 1];
      ConfigMapLastWins(init, name);
      assert forall i :: 0 <= i < |init| ==> init[i] == configTunnels[i];
      var n := |configTunnels| - 1;
      if configTunnels[n].name != name && name in ConfigMap(init) {
        var i :| 0 <= i < |init| && ConfigMap(init)[name] == init[i] && name == init[i].name
                 && forall j :: i < j < |init| ==> init[j].name != name;
        assert forall j :: i < j < |configTunnels| ==> configTunnels[j].name != name;
      }
    }
  }

  /** One `finalData` entry: the reported tunnel, the account's alias, and
      the GitHub repository of the configured tunnel of that name, if any. */
  function ObservationOf(acc: AccountCtx, configMap: map<string, TunnelConfig>, t: Tunnel): (o: Observation)
    ensures o.name == t.name && o.id == t.id && o.status == t.status && o.accountName == acc.accountName
    ensures t.name !in configMap ==> o.githubOwner.None? && o.githubRepo.None?
    ensures t.name in configMap ==> o.githubOwner == configMap[t.name].githubOwner
                                    && o.githubRepo == configMap[t.name].githubRepo
  {
    var conf := if t.name in configMap then Some(configMap[t.name]) else None;
    Observation(t.name, t.id, t.status, acc.accountName,
                if conf.Some? then conf.value.githubOwner else None,
                if conf.Some? then conf.value.githubRepo else None)
  }

  /** `error` is tested for truthiness: an empty message is no error. */
  predicate Errored(o: FetchOutcome) {
    o.Rejected? || (o.error.Some? && o.error.value != "")
  }

  /** The reported tunnels an outcome contributes: none when it errored. */
  function Listed(o: FetchOutcome): seq<Tunnel> {
    if Errored(o) then [] else o.apiData
  }

  /** The entries one account adds, one per reported tunnel, in the API's order. */
  function Merged(acc: AccountCtx, o: FetchOutcome): (r: seq<Observation>)
    ensures |r| == |Listed(o)|
    ensures forall i :: 0 <= i < |r| ==> r[i] == ObservationOf(acc, ConfigMap(acc.configTunnels), Listed(o)[i])
  {
    var ts := Listed(o);
    seq(|ts|, i requires 0 <= i < |ts| => ObservationOf(acc, ConfigMap(acc.configTunnels), ts[i]))
  }

  /** `finalData` after the given accounts. */
  function MergedAll(groups: seq<AccountCtx>, fetch: AccountCtx -> FetchOutcome): seq<Observation> {
    if |groups| == 0 then []
    else MergedAll(groups[..|groups| - 1], fetch) + Merged(groups[|groups| - 1], fetch(groups[|groups| - 1]))
  }

  predicate IsHealthyObservation(o: Observation) {
    o.status == Healthy
  }

  /** The number of healthy entries. */
  function HealthyEntries(obs: seq<Observation>): (n: nat)
    ensures n <= |obs|
  {
    if |obs| == 0 then 0
    else HealthyEntries(obs[..|obs| - 1]) + (if IsHealthyObservation(obs[|obs| - 1]) then 1 else 0)
  }

  /** The loop body for one settled account: unless it errored, each
      reported tunnel is counted and merged with the configuration. */
  method MergeAccount(acc: AccountCtx, res: FetchOutcome, finalData: seq<Observation>, total: nat, healthy: nat)
    returns (finalData': seq<Observation>, total': nat, healthy': nat)
    requires total == |finalData| && healthy == HealthyEntries(finalData)
    ensures finalData' == finalData + Merged(acc, res)
    ensures total' == |finalData'| && healthy' == HealthyEntries(finalData')
  {
    finalData', total', healthy' := finalData, total, healthy;
    if res.Fulfilled? && !Errored(res) {
      var configMap := ConfigMap(acc.configTunnels);
      for j := 0 to |res.apiData|
        invariant finalData' == finalData + Merged(acc, res)[..j]
        invariant total' == |finalData'| && healthy' == HealthyEntries(finalData')
      {
        var realT := res.apiData[j];
        total' := total' + 1;
        if realT.status == Healthy {
          healthy' := healthy' + 1;
        }
        var entry := ObservationOf(acc, configMap, realT);
        PrefixAppend(Merged(acc, res), j);
        AppendAssoc(finalData, Merged(acc, res)[..j], [entry]);
        FrontOfSnoc(finalData', entry);
        finalData' := finalData' + [entry];
      }
      FullPrefix(Merged(acc, res));
    } else {
      assert Merged(acc, res) == [];
    }
  }

  /** `checkAllTunnels(config)`, `fetch` standing for the settled
      `fetchAccountData` of each account. */
  method CheckAllTunnels(config: Config, fetch: AccountCtx -> FetchOutcome) returns (data: Reconciled)
    ensures data.tunnels == MergedAll(Grouped(config.tunnels), fetch)
    ensures data.stats.total == |data.tunnels|
    ensures data.stats.healthy == HealthyEntries(data.tunnels)
  {
    var groups := GroupAccounts(config.tunnels);
    var results := seq(|groups|, i requires 0 <= i < |groups| => fetch(groups[i]));
    var finalData: seq<Observation> := [];
    var total, healthy := 0, 0;
    for i := 0 to |results|
      invariant finalData == MergedAll(groups[..i], fetch)
      invariant total == |finalData| && healthy == HealthyEntries(finalData)
    {
      assert results[i] == fetch(groups[i]);
      finalData, total, healthy := MergeAccount(groups[i], results[i], finalData, total, healthy);
      PrefixStep(groups, i);
    }
    FullPrefix(groups);
    data := Reconciled(finalData, Stats(total, healthy));
  }

  // ----- what the counts promise -----

  /** The reported tunnels of the accounts that did not error. */
  function ListedTotal(groups: seq<AccountCtx>, fetch: AccountCtx -> FetchOutcome): nat {
    if |groups| == 0 then 0
    else ListedTotal(groups[..|groups| - 1], fetch) + |Listed(fetch(groups[|groups| - 1]))|
  }

  /** The healthy reported tunnels of the accounts that did not error. */
  function ListedHealthy(groups: seq<AccountCtx>, fetch: AccountCtx -> FetchOutcome): nat {
    if |groups| == 0 then 0
    else ListedHealthy(groups[..|groups| - 1], fetch) + HealthyCount(Listed(fetch(groups[|groups| - 1])))
  }

  lemma {:induction false} HealthyEntriesAppend(a: seq<Observation>, b: seq<Observation>)
    ensures HealthyEntries(a + b) == HealthyEntries(a) + HealthyEntries(b)
    decreases |b|
  {
    if |b| == 0 {
      assert a + b == a;
    } else {
      HealthyEntriesAppend(a, b[..|b| - 1]);
      assert (a + b)[..|a + b| - 1] == a + b[..|b| - 1];
      assert (a + b)[|a + b| - 1] == b[|b| - 1];
    }
  }

  /** An account's entries are healthy exactly as its reported tunnels are. */
  lemma {:induction false} MergedHealthy(acc: AccountCtx, o: FetchOutcome, ts: seq<Tunnel>)
    requires ts == Listed(o)
    ensures HealthyEntries(Merged(acc, o)) == HealthyCount(ts)
  {
    var m := ConfigMap(acc.configTunnels);
    var obs := seq(|ts|, i requires 0 <= i < |ts| => ObservationOf(acc, m, ts[i]));
    assert Merged(acc, o) == obs;
    PrefixHealthy(acc, m, ts);
  }

  lemma {:induction false} PrefixHealthy(acc: AccountCtx, m: map<string, TunnelConfig>, ts: seq<Tunnel>)
    ensures HealthyEntries(seq(|ts|, i requires 0 <= i < |ts| => ObservationOf(acc, m, ts[i]))) == HealthyCount(ts)
  {
    if |ts| > 0 {
      var init := ts[..|ts| - 1];
      PrefixHealthy(acc, m, init);
      var obs := seq(|ts|, i requires 0 <= i < |ts| => ObservationOf(acc, m, ts[i]));
      assert obs[..|ts| - 1] == seq(|init|, i requires 0 <= i < |init| => ObservationOf(acc, m, init[i]));
    }
  }

  /** `stats.total` counts the reported tunnels of the accounts that did not
      error, `stats.healthy` the healthy ones among them, and the latter never
      exceeds the former. */
  lemma {:induction false} StatsCountListed(groups: seq<AccountCtx>, fetch: AccountCtx -> FetchOutcome)
    ensures |MergedAll(groups, fetch)| == ListedTotal(groups, fetch)
    ensures HealthyEntries(MergedAll(groups, fetch)) == ListedHealthy(groups, fetch)
    ensures ListedHealthy(groups, fetch) <= ListedTotal(groups, fetch)
  {
    if |groups| > 0 {
      var init := groups[..|groups| - 1];
      var g := groups[|groups| - 1];
      StatsCountListed(init, fetch);
      HealthyEntriesAppend(MergedAll(init, fetch), Merged(g, fetch(g)));
      MergedHealthy(g, fetch(g), Listed(fetch(g)));
    }
  }

  /** An account whose fetch errored or was rejected contributes no entry. */
  lemma ErroredAddsNothing(groups: seq<AccountCtx>, g: AccountCtx, fetch: AccountCtx -> FetchOutcome)
    requires Errored(fetch(g))
    ensures MergedAll(groups + [g], fetch) == MergedAll(groups, fetch)
  {
    assert (groups + [g])[..|groups|] == groups;
  }
}

/** The policy state of Tunnel Monitor v10.0 (`_worker-1.0.js`) and the
    handlers that change it: the muted-tunnel list and the daily trigger
    counters kept in the worker's KV namespace, the web toggle, the
    scheduled run and the Telegram button webhook. */
module PolicyStore {

  import opened Wrappers
  import opened Seqs
  import opened Observed
  import opened Inventory
  import opened Reconciler
  import opened Dispatch
  import JsText

  /** The value of the key `trigger_stats:<name>`. */
  datatype QuotaRecord = QuotaRecord(count: int, date: string)

  /** Automatic dispatches allowed per tunnel per day. */
  const DailyQuota: int := 3

  // ----- the muted list -----

  /** `mutedList.push(name)` unless the list already has it. A missing name
      parameter is pushed as `null`, written here `None`. */
  function Mute(list: seq<Option<string>>, name: Option<string>): (r: seq<Option<string>>)
    ensures name in r
    ensures name in list ==> r == list
    ensures name !in list ==> r == list + [name]
  {
    if name in list then list else list + [name]
  }

  /** `mutedList.filter(n => n !== name)`. */
  function Unmute(list: seq<Option<string>>, name: Option<string>): (r: seq<Option<string>>)
    ensures name !in r
    ensures |r| <= |list|
  {
    if |list| == 0 then []
    else Unmute(list[..|list| - 1], name) + (if list[|list| - 1] == name then [] else [list[|list| - 1]])
  }

  /** What `/toggle-mute?name=...&action=...` writes back: its `mute` is
      `Mute`, its `unmute` is `Unmute`, any other action changes nothing. */
  function Toggled(list: seq<Option<string>>, name: Option<string>, action: Option<string>): (r: seq<Option<string>>)
    ensures action == Some("mute") ==> r == Mute(list, name)
    ensures action == Some("unmute") ==> r == Unmute(list, name)
    ensures action != Some("mute") && action != Some("unmute") ==> r == list
  {
    if action == Some("mute") && name !in list then list + [name]
    else if action == Some("unmute") then Unmute(list, name)
    else list
  }

  predicate NoDuplicates(list: seq<Option<string>>) {
    forall i, j :: 0 <= i < j < |list| ==> list[i] != list[j]
  }

  /** No tunnel name is muted twice; `null` entries may repeat. */
  predicate NoDuplicateNames(list: seq<Option<string>>) {
    forall i, j :: 0 <= i < j < |list| && list[i].Some? ==> list[i] != list[j]
  }

  /** `mutedList.includes(tName)` in the webhook. The list is read back from
      JSON, so it holds names and `null`s but never `undefined`: a press
      without a name (`None` here) matches no entry, not even a `null`. */
  function Includes(list: seq<Option<string>>, name: Option<string>): (found: bool)
    ensures name.None? ==> !found
    ensures name.Some? ==> (found <==> name in list)
  {
    name.Some? && name in list
  }

  /** The webhook's mute: the name is pushed unless the list includes it.
      A missing name is pushed as `undefined`, which JSON stores as `null`,
      so it is pushed again on every press. */
  function PressMute(list: seq<Option<string>>, name: Option<string>): (r: seq<Option<string>>)
    ensures name.Some? ==> r == Mute(list, name)
    ensures name.None? ==> r == list + [None]
  {
    if Includes(list, name) then list else list + [name]
  }

  /** Both mutes keep tunnel names unique. */
  lemma MuteKeepsNamesUnique(list: seq<Option<string>>, name: Option<string>)
    requires NoDuplicateNames(list)
    ensures NoDuplicateNames(Mute(list, name)) && NoDuplicateNames(PressMute(list, name))
  {
  }

  /** Unmuting keeps tunnel names unique. */
  lemma {:induction false} UnmuteKeepsNamesUnique(list: seq<Option<string>>, name: Option<string>)
    requires NoDuplicateNames(list)
    ensures NoDuplicateNames(Unmute(list, name))
  {
    if |list| > 0 {
      var init := list[..|list| - 1];
      UnmuteKeepsNamesUnique(init, name);
      UnmuteKeepsOthers(init, name);
      var last := list[|list| - 1];
      if last != name && last.Some? {
        assert last !in init;
        assert multiset(init)[last] == 0;
        assert last !in Unmute(init, name);
      }
    }
  }

  /** A press without a name on a list that holds a `null` still appends
      one: the webhook's list can hold `null` twice. */
  lemma PressMuteRepeatsNull(list: seq<Option<string>>)
    requires None in list
    ensures PressMute(list, None) == list + [None]
    ensures !NoDuplicates(PressMute(list, None))
  {
    var i :| 0 <= i < |list| && list[i] == None;
    assert PressMute(list, None)[i] == PressMute(list, None)[|list|];
  }

  /** Muting twice is muting once. */
  lemma MuteIdempotent(list: seq<Option<string>>, name: Option<string>)
    ensures Mute(Mute(list, name), name) == Mute(list, name)
  {
  }

  /** Muting keeps the list free of duplicates and the other names in place. */
  lemma MutePreservesOrder(list: seq<Option<string>>, name: Option<string>)
    requires NoDuplicates(list)
    ensures NoDuplicates(Mute(list, name))
    ensures Mute(list, name)[..|list|] == list
  {
  }

  /** Unmuting keeps every other entry, as often as it occurred. */
  lemma {:induction false} UnmuteKeepsOthers(list: seq<Option<string>>, name: Option<string>)
    ensures multiset(Unmute(list, name))[name] == 0
    ensures forall other :: other != name ==> multiset(Unmute(list, name))[other] == multiset(list)[other]
  {
    if |list| > 0 {
      var init, last := list[..|list| - 1], list[|list| - 1];
      UnmuteKeepsOthers(init, name);
      FrontLast(list);
      assert multiset(list) == multiset(init) + multiset([last]);
      var piece := if last == name then [] else [last];
      assert multiset(Unmute(list, name)) == multiset(Unmute(init, name)) + multiset(piece);
    }
  }

  /** Unmuting works piece by piece, so the remaining entries keep their relative order. */
  lemma {:induction false} UnmuteDistributes(a: seq<Option<string>>, b: seq<Option<string>>, name: Option<string>)
    ensures Unmute(a + b, name) == Unmute(a, name) + Unmute(b, name)
    decreases |b|
  {
    if |b| == 0 {
      AppendEmpty(a);
      AppendEmpty(Unmute(a, name));
    } else {
      var init, last := b[..|b| - 1], b[|b| - 1];
      UnmuteDistributes(a, init, name);
      FrontOfAppend(a, b);
      var piece := if last == name then [] else [last];
      assert Unmute(a + b, name) == Unmute(a + init, name) + piece;
      assert Unmute(b, name) == Unmute(init, name) + piece;
      AppendAssoc(Unmute(a, name), Unmute(init, name), piece);
    }
  }

  /** A name that is not muted is not unmuted either: the list stays as it was. */
  lemma {:induction false} UnmuteAbsent(list: seq<Option<string>>, name: Option<string>)
    requires name !in list
    ensures Unmute(list, name) == list
  {
    if |list| > 0 {
      UnmuteAbsent(list[..|list| - 1], name);
    }
  }

  /** Unmuting is idempotent, and undoes a mute. */
  lemma UnmuteUndoesMute(list: seq<Option<string>>, name: Option<string>)
    ensures Unmute(Unmute(list, name), name) == Unmute(list, name)
    ensures Unmute(Mute(list, name), name) == Unmute(list, name)
  {
    UnmuteAbsent(Unmute(list, name), name);
    if name !in list {
      UnmuteDistributes(list, [name], name);
      assert Unmute([name], name) == [];
    }
  }

  /** Unmuting keeps a list free of duplicates. */
  lemma {:induction false} UnmuteNoDuplicates(list: seq<Option<string>>, name: Option<string>)
    requires NoDuplicates(list)
    ensures NoDuplicates(Unmute(list, name))
  {
    if |list| > 0 {
      var init := list[..|list| - 1];
      UnmuteNoDuplicates(init, name);
      UnmuteKeepsOthers(init, name);
      var last := list[|list| - 1];
      if last != name {
        assert last !in init;
        assert multiset(init)[last] == 0;
        assert last !in Unmute(init, name);
      }
    }
  }

  // ----- the daily trigger quota -----

  /** The counter the scheduled run works with: the stored one if it is from
      today, otherwise a fresh one for today. */
  function Current(rec: Option<QuotaRecord>, today: string): (c: QuotaRecord)
    ensures c.date == today
    ensures rec.None? || rec.value.date != today ==> c.count == 0
  {
    if rec.None? || rec.value.date != today then QuotaRecord(0, today) else rec.value
  }

  function Lookup(stats: map<string, QuotaRecord>, name: string): Option<QuotaRecord> {
    if name in stats then Some(stats[name]) else None
  }

  /** One pass of the quota gate for a tunnel with a workflow: whether it
      dispatches, and the counters afterwards. The counter rises by one on
      every dispatch, whatever GitHub answers; an exhausted counter is not
      written. */
  function QuotaStep(stats: map<string, QuotaRecord>, name: string, today: string)
    : (r: (bool, map<string, QuotaRecord>))
    ensures r.0 <==> Current(Lookup(stats, name), today).count < DailyQuota
    ensures r.0 ==> r.1 == stats[name := QuotaRecord(Current(Lookup(stats, name), today).count + 1, today)]
    ensures !r.0 ==> r.1 == stats
  {
    var cur := Current(Lookup(stats, name), today);
    if cur.count < DailyQuota then (true, stats[name := cur.(count := cur.count + 1)]) else (false, stats)
  }

  /** Every stored counter lies between 0 and the quota. */
  predicate QuotaBounded(stats: map<string, QuotaRecord>) {
    forall n :: n in stats ==> 0 <= stats[n].count <= DailyQuota
  }

  /** The gate never stores a counter above the quota. */
  lemma QuotaStepBounded(stats: map<string, QuotaRecord>, name: string, today: string)
    requires QuotaBounded(stats)
    ensures QuotaBounded(QuotaStep(stats, name, today).1)
  {
  }

  /** A counter from another day counts as zero, so the first pass of a new day dispatches. */
  lemma NewDayResets(stats: map<string, QuotaRecord>, name: string, today: string)
    requires name in stats && stats[name].date != today
    ensures QuotaStep(stats, name, today).0
    ensures QuotaStep(stats, name, today).1[name] == QuotaRecord(1, today)
  {
  }

  /** The dispatches that `k` passes of the gate on one day make for one tunnel. */
  function FiresInDay(stats: map<string, QuotaRecord>, name: string, today: string, k: nat): nat
    decreases k
  {
    if k == 0 then 0
    else
      var step := QuotaStep(stats, name, today);
      (if step.0 then 1 else 0) + FiresInDay(step.1, name, today, k - 1)
  }

  /** The dispatches left today. */
  function Room(stats: map<string, QuotaRecord>, name: string, today: string): nat {
    var c := Current(Lookup(stats, name), today).count;
    if c < DailyQuota then DailyQuota - c else 0
  }

  /** Within one day, `k` passes dispatch exactly `min(k, room)` times: never
      more than the quota. */
  lemma {:induction false} FiresInDayIsCapped(stats: map<string, QuotaRecord>, name: string, today: string, k: nat)
    ensures FiresInDay(stats, name, today, k) == if k < Room(stats, name, today) then k else Room(stats, name, today)
    decreases k
  {
    if k > 0 {
      var step := QuotaStep(stats, name, today);
      FiresInDayIsCapped(step.1, name, today, k - 1);
    }
  }

  // ----- the scheduled run -----

  /** What the alert says after the tunnel's status. */
  datatype Note =
    | NoWorkflow          // the tunnel has no `patMap` entry
    | Dispatched(n: int)  // dispatched, the `n`-th time today
    | Exhausted           // today's quota is used up

  /** An inline keyboard button. */
  datatype Button = Button(caption: string, data: string)

  /** One `sendTelegramAlert`: the chat, the down tunnel, the note and the buttons. */
  datatype Alert = Alert(chatId: Option<string>, tunnel: Observation, note: Note, buttons: seq<Button>)

  /** The buttons of an alert: "repair" when the tunnel has a workflow, "mute" always. */
  function Buttons(name: string, hasAction: bool): (r: seq<Button>)
    ensures |r| == (if hasAction then 2 else 1)
    ensures r[|r| - 1].data == CallbackData("mute", name)
    ensures hasAction ==> r[0].data == CallbackData("fix", name)
  {
    (if hasAction then [Button("🛠 强制修复", CallbackData("fix", name))] else [])
    + [Button("🔕 静音通知", CallbackData("mute", name))]
  }

  /** What a scheduled run does: dispatches made, alerts sent, counters afterwards. */
  datatype RunResult = RunResult(stats: map<string, QuotaRecord>, dispatched: seq<Observation>, alerts: seq<Alert>)

  /** The note of the alert for a down, unmuted tunnel, given the counters
      before it: no workflow, the count after a dispatch, or an exhausted quota. */
  function NoteFor(stats: map<string, QuotaRecord>, patMap: map<string, Target>, today: string, name: string): (n: Note)
    ensures n.NoWorkflow? <==> name !in patMap
    ensures n.Dispatched? <==> name in patMap && Current(Lookup(stats, name), today).count < DailyQuota
    ensures n.Dispatched? ==> n.n == Current(Lookup(stats, name), today).count + 1
  {
    if name !in patMap then NoWorkflow
    else if Current(Lookup(stats, name), today).count < DailyQuota then Dispatched(Current(Lookup(stats, name), today).count + 1)
    else Exhausted
  }

  /** The body of the loop for one entry of the merged list: a healthy or
      muted tunnel is skipped; a down one with a workflow and room left
      today is dispatched and counted; every down, unmuted tunnel is
      alerted on when a bot token is set. */
  function TunnelStep(stats: map<string, QuotaRecord>, muted: seq<Option<string>>, patMap: map<string, Target>,
                      env: Env, today: string, t: Observation): (r: RunResult)
    ensures IsHealthyObservation(t) || Some(t.name) in muted ==> r == RunResult(stats, [], [])
    ensures |r.dispatched| <= 1 && |r.alerts| <= 1
    ensures !IsHealthyObservation(t) && Some(t.name) !in muted ==>
              (r.dispatched == [t] <==> NoteFor(stats, patMap, today, t.name).Dispatched?)
              && (r.dispatched == [] <==> !NoteFor(stats, patMap, today, t.name).Dispatched?)
              && r.stats == QuotaAfter(stats, patMap, today, t.name)
              && (Truthy(env.tgBotToken) ==>
                    r.alerts == [Alert(env.tgChatId, t, NoteFor(stats, patMap, today, t.name), Buttons(t.name, t.name in patMap))])
              && (!Truthy(env.tgBotToken) ==> r.alerts == [])
  {
    if IsHealthyObservation(t) || Some(t.name) in muted then RunResult(stats, [], [])
    else
      var hasAction := t.name in patMap;
      var step := if hasAction then QuotaStep(stats, t.name, today) else (false, stats);
      var note := if !hasAction then NoWorkflow
                  else if step.0 then Dispatched(step.1[t.name].count)
                  else Exhausted;
      RunResult(step.1, if step.0 then [t] else [],
                if Truthy(env.tgBotToken) then [Alert(env.tgChatId, t, note, Buttons(t.name, hasAction))] else [])
  }

  /** The counters after a down, unmuted tunnel: one more for today when it
      is dispatched, unchanged otherwise. */
  function QuotaAfter(stats: map<string, QuotaRecord>, patMap: map<string, Target>, today: string, name: string)
    : (r: map<string, QuotaRecord>)
    ensures NoteFor(stats, patMap, today, name).Dispatched? ==>
              r == stats[name := QuotaRecord(NoteFor(stats, patMap, today, name).n, today)]
    ensures !NoteFor(stats, patMap, today, name).Dispatched? ==> r == stats
  {
    if name in patMap then QuotaStep(stats, name, today).1 else stats
  }

  /** The whole loop over the merged list, the muted list read once before it. */
  function Run(stats: map<string, QuotaRecord>, muted: seq<Option<string>>, patMap: map<string, Target>,
               env: Env, today: string, tunnels: seq<Observation>): (r: RunResult)
    ensures |r.dispatched| <= |tunnels| && |r.alerts| <= |tunnels|
  {
    if |tunnels| == 0 then RunResult(stats, [], [])
    else
      var before := Run(stats, muted, patMap, env, today, tunnels[..|tunnels| - 1]);
      var step := TunnelStep(before.stats, muted, patMap, env, today, tunnels[|tunnels| - 1]);
      RunResult(step.stats, before.dispatched + step.dispatched, before.alerts + step.alerts)
  }

  /** The entries of the merged list that are down and not muted, in order. */
  function NeedsAttention(muted: seq<Option<string>>, tunnels: seq<Observation>): (r: seq<Observation>)
    ensures |r| <= |tunnels|
  {
    if |tunnels| == 0 then []
    else
      var t := tunnels[|tunnels| - 1];
      NeedsAttention(muted, tunnels[..|tunnels| - 1])
      + (if !IsHealthyObservation(t) && Some(t.name) !in muted then [t] else [])
  }

  /** The tunnels a list of alerts is about. */
  function AlertedTunnels(alerts: seq<Alert>): (r: seq<Observation>)
    ensures |r| == |alerts| && forall k :: 0 <= k < |alerts| ==> r[k] == alerts[k].tunnel
  {
    seq(|alerts|, k requires 0 <= k < |alerts| => alerts[k].tunnel)
  }

  /** With a bot token set, the run alerts on every down, unmuted tunnel,
      once each and in the order of the merged list, whatever the quota. */
  lemma {:induction false} RunAlertsEveryDownTunnel(stats: map<string, QuotaRecord>, muted: seq<Option<string>>,
                                                    patMap: map<string, Target>, env: Env, today: string,
                                                    tunnels: seq<Observation>)
    requires Truthy(env.tgBotToken)
    ensures AlertedTunnels(Run(stats, muted, patMap, env, today, tunnels).alerts) == NeedsAttention(muted, tunnels)
  {
    if |tunnels| > 0 {
      var init, t := tunnels[..|tunnels| - 1], tunnels[|tunnels| - 1];
      RunAlertsEveryDownTunnel(stats, muted, patMap, env, today, init);
      var before := Run(stats, muted, patMap, env, today, init);
      var step := TunnelStep(before.stats, muted, patMap, env, today, t);
      AlertedTunnelsAppend(before.alerts, step.alerts);
    }
  }

  lemma AlertedTunnelsAppend(a: seq<Alert>, b: seq<Alert>)
    ensures AlertedTunnels(a + b) == AlertedTunnels(a) + AlertedTunnels(b)
  {
  }

  /** How many entries of the merged list named `name` the run may dispatch:
      down, not muted, with a workflow. */
  function EligibleCount(muted: seq<Option<string>>, patMap: map<string, Target>, tunnels: seq<Observation>,
                         name: string): (n: nat)
    ensures n <= |tunnels|
  {
    if |tunnels| == 0 then 0
    else
      var t := tunnels[|tunnels| - 1];
      EligibleCount(muted, patMap, tunnels[..|tunnels| - 1], name)
      + (if t.name == name && !IsHealthyObservation(t) && Some(t.name) !in muted && name in patMap then 1 else 0)
  }

  /** The tunnels a run dispatches are down, not muted and have a workflow;
      every alert is about a tunnel that is down and not muted. */
  lemma {:induction false} RunDispatchesOnlyEligible(stats: map<string, QuotaRecord>, muted: seq<Option<string>>,
                                                     patMap: map<string, Target>, env: Env, today: string,
                                                     tunnels: seq<Observation>)
    ensures forall i :: 0 <= i < |Run(stats, muted, patMap, env, today, tunnels).dispatched| ==>
              var d := Run(stats, muted, patMap, env, today, tunnels).dispatched[i];
              !IsHealthyObservation(d) && Some(d.name) !in muted && d.name in patMap && d in tunnels
              && PlanDispatch(patMap, Some(d.name), d.status).Success?
    ensures forall i :: 0 <= i < |Run(stats, muted, patMap, env, today, tunnels).alerts| ==>
              var a := Run(stats, muted, patMap, env, today, tunnels).alerts[i];
              !IsHealthyObservation(a.tunnel) && Some(a.tunnel.name) !in muted && a.tunnel in tunnels
  {
    if |tunnels| > 0 {
      var init := tunnels[..|tunnels| - 1];
      RunDispatchesOnlyEligible(stats, muted, patMap, env, today, init);
      assert forall o :: o in init ==> o in tunnels;
    }
  }

  /** Without a bot token the run sends no alert. */
  lemma {:induction false} NoTokenNoAlerts(stats: map<string, QuotaRecord>, muted: seq<Option<string>>,
                                           patMap: map<string, Target>, env: Env, today: string,
                                           tunnels: seq<Observation>)
    requires !Truthy(env.tgBotToken)
    ensures Run(stats, muted, patMap, env, today, tunnels).alerts == []
  {
    if |tunnels| > 0 {
      NoTokenNoAlerts(stats, muted, patMap, env, today, tunnels[..|tunnels| - 1]);
    }
  }

  /** The entries of a list of observations with a given name. */
  function CountName(obs: seq<Observation>, name: string): nat {
    if |obs| == 0 then 0
    else CountName(obs[..|obs| - 1], name) + (if obs[|obs| - 1].name == name then 1 else 0)
  }

  lemma {:induction false} CountNameAppend(a: seq<Observation>, b: seq<Observation>, name: string)
    ensures CountName(a + b, name) == CountName(a, name) + CountName(b, name)
    decreases |b|
  {
    if |b| == 0 {
      AppendEmpty(a);
    } else {
      CountNameAppend(a, b[..|b| - 1], name);
      FrontOfAppend(a, b);
    }
  }

  /** Today's counter as the run reads it never exceeds the quota. */
  lemma CurrentBounded(stats: map<string, QuotaRecord>, name: string, today: string)
    requires QuotaBounded(stats)
    ensures 0 <= Current(Lookup(stats, name), today).count <= DailyQuota
  {
  }

  /** One entry of the loop keeps the counters within the quota and raises
      a tunnel's count for today by its dispatches. */
  lemma StepCountsDispatches(stats: map<string, QuotaRecord>, muted: seq<Option<string>>,
                             patMap: map<string, Target>, env: Env, today: string,
                             t: Observation, name: string)
    requires QuotaBounded(stats)
    ensures var r := TunnelStep(stats, muted, patMap, env, today, t);
            QuotaBounded(r.stats)
            && Current(Lookup(r.stats, name), today).count
               == Current(Lookup(stats, name), today).count + CountName(r.dispatched, name)
  {
    if !(IsHealthyObservation(t) || Some(t.name) in muted) && t.name in patMap {
      QuotaStepBounded(stats, t.name, today);
    }
    assert [t][..0] == [];
  }

  /** Today's counter of a tunnel rises by exactly its dispatches in the run,
      and counters stay within the quota. So no tunnel is dispatched more
      than three times a day by the scheduled runs. */
  lemma {:induction false} RunCountsDispatches(stats: map<string, QuotaRecord>, muted: seq<Option<string>>,
                                               patMap: map<string, Target>, env: Env, today: string,
                                               tunnels: seq<Observation>, name: string)
    requires QuotaBounded(stats)
    ensures var r := Run(stats, muted, patMap, env, today, tunnels);
            QuotaBounded(r.stats)
            && Current(Lookup(r.stats, name), today).count
               == Current(Lookup(stats, name), today).count + CountName(r.dispatched, name)
            && Current(Lookup(stats, name), today).count + CountName(r.dispatched, name) <= DailyQuota
  {
    var r := Run(stats, muted, patMap, env, today, tunnels);
    if |tunnels| > 0 {
      var init, t := tunnels[..|tunnels| - 1], tunnels[|tunnels| - 1];
      RunCountsDispatches(stats, muted, patMap, env, today, init, name);
      var before := Run(stats, muted, patMap, env, today, init);
      var step := TunnelStep(before.stats, muted, patMap, env, today, t);
      assert r == RunResult(step.stats, before.dispatched + step.dispatched, before.alerts + step.alerts);
      StepCountsDispatches(before.stats, muted, patMap, env, today, t, name);
      CountNameAppend(before.dispatched, step.dispatched, name);
    }
    CurrentBounded(r.stats, name, today);
  }

  /** Each entry of the merged list that may be dispatched is, until today's
      room is used up: a run dispatches a tunnel exactly `min(eligible,
      room)` times. */
  lemma {:induction false} RunDispatchesUpToQuota(stats: map<string, QuotaRecord>, muted: seq<Option<string>>,
                                                  patMap: map<string, Target>, env: Env, today: string,
                                                  tunnels: seq<Observation>, name: string)
    requires QuotaBounded(stats)
    ensures CountName(Run(stats, muted, patMap, env, today, tunnels).dispatched, name)
            == if EligibleCount(muted, patMap, tunnels, name) < Room(stats, name, today)
               then EligibleCount(muted, patMap, tunnels, name) else Room(stats, name, today)
  {
    if |tunnels| > 0 {
      var init, t := tunnels[..|tunnels| - 1], tunnels[|tunnels| - 1];
      RunDispatchesUpToQuota(stats, muted, patMap, env, today, init, name);
      RunCountsDispatches(stats, muted, patMap, env, today, init, name);
      var before := Run(stats, muted, patMap, env, today, init);
      var step := TunnelStep(before.stats, muted, patMap, env, today, t);
      assert Run(stats, muted, patMap, env, today, tunnels).dispatched == before.dispatched + step.dispatched;
      CountNameAppend(before.dispatched, step.dispatched, name);
      StepDispatchCount(before.stats, muted, patMap, env, today, t, name);
      CurrentBounded(stats, name, today);
    }
  }

  /** One entry dispatches the tunnel `name` once when it is that tunnel,
      may be dispatched and finds room left today. */
  lemma StepDispatchCount(stats: map<string, QuotaRecord>, muted: seq<Option<string>>,
                          patMap: map<string, Target>, env: Env, today: string, t: Observation, name: string)
    ensures CountName(TunnelStep(stats, muted, patMap, env, today, t).dispatched, name)
            == if t.name == name && !IsHealthyObservation(t) && Some(t.name) !in muted && name in patMap
                  && Current(Lookup(stats, name), today).count < DailyQuota then 1 else 0
  {
    assert [t][..0] == [];
  }

  // ----- the webhook -----

  datatype CallbackQuery = CallbackQuery(id: string, data: string, chatId: string)

  /** The parts of a Telegram update the webhook reads. */
  datatype Update = Update(callbackQuery: Option<CallbackQuery>)

  /** The Telegram Bot API calls the webhook makes. */
  datatype TelegramCall =
    | AnswerCallbackQuery(callbackQueryId: string, text: string)
    | SendMessage(chatId: string, text: string)

  /** `String(v)`: an unset variable renders as `undefined`. */
  function JsString(v: Option<string>): string {
    if v.None? then "undefined" else v.value
  }

  /** The press comes from the configured chat, both sides compared as
      strings. */
  function Authorized(cq: CallbackQuery, env: Env): (ok: bool)
    ensures env.tgChatId.Some? ==> (ok <==> cq.chatId == env.tgChatId.value)
    ensures env.tgChatId.None? ==> (ok <==> cq.chatId == "undefined")
  {
    cq.chatId == JsString(env.tgChatId)
  }

  const OkResponse: HttpResponse := HttpResponse(200, Text("OK"))
  const UnauthorizedResponse: HttpResponse := HttpResponse(403, Text("Unauthorized"))
  const WebhookErrorResponse: HttpResponse := HttpResponse(500, Text("Error"))

  /** The acknowledgement every authorised press that gets past the
      configuration gets. */
  const AckText: string := "操作已接收"

  /** The muted list after a button press. */
  function WebhookMuted(muted: seq<Option<string>>, env: Env, update: Update): (r: seq<Option<string>>)
    ensures muted <= r && |r| <= |muted| + 1
    ensures |r| > |muted| ==> r[|muted|].None? || r[|muted|] !in muted
    ensures r != muted ==> update.callbackQuery.Some? && Authorized(update.callbackQuery.value, env)
                           && DecodeAsWritten(update.callbackQuery.value.data).action == "mute"
  {
    match update.callbackQuery
    case None => muted
    case Some(cq) =>
      var c := DecodeAsWritten(cq.data);
      if Authorized(cq, env) && c.action == "mute" then PressMute(muted, c.name) else muted
  }

  const AlreadyMutedMsg: string := "⚠️ 该隧道已在静音列表中"

  /** The confirmation of a mute, the name rendered as a template literal renders it. */
  function MutedMsg(name: Option<string>): (r: string)
    ensures |r| > 0 && r[0] != AlreadyMutedMsg[0]
  {
    "🔕 已静音: " + JsString(name) + " (不再接收报警)"
  }

  /** A mute without a name is confirmed as a mute of `undefined`. */
  lemma MutedMsgUndefined()
    ensures MutedMsg(None) == "🔕 已静音: undefined (不再接收报警)"
  {
    assert "🔕 已静音: " + "undefined" + " (不再接收报警)" == "🔕 已静音: undefined (不再接收报警)";
  }

  /** The reply text of a button press: the repair result, the mute
      confirmation (or that the name was muted already), or nothing for an
      unknown action. */
  function ReplyText(muted: seq<Option<string>>, c: Callback, fix: TriggerResult): (r: string)
    ensures c.action != "fix" && c.action != "mute" ==> r == ""
    ensures c.action == "mute" ==> (r == AlreadyMutedMsg <==> Includes(muted, c.name))
    ensures c.action == "mute" && !Includes(muted, c.name) ==> r == MutedMsg(c.name)
  {
    if c.action == "fix" then
      if fix.success then "✅ 已发送 GitHub 修复请求: " + JsString(c.name) else "❌ 修复请求失败: " + fix.msg
    else if c.action == "mute" then
      if !Includes(muted, c.name) then MutedMsg(c.name) else AlreadyMutedMsg
    else ""
  }

  /** The response and the Telegram calls of a button press. */
  function WebhookReply(muted: seq<Option<string>>, env: Env, update: Update, reply: GitHubReply)
    : (r: (HttpResponse, seq<TelegramCall>))
    ensures update.callbackQuery.Some? && !Authorized(update.callbackQuery.value, env)
            ==> r == (UnauthorizedResponse, [])
    ensures r.0 == OkResponse || r.0 == UnauthorizedResponse || r.0 == WebhookErrorResponse
    ensures r.0 != OkResponse ==> r.1 == []
    ensures update.callbackQuery.None? ==> r == (OkResponse, [])
    ensures update.callbackQuery.Some? && Authorized(update.callbackQuery.value, env) ==>
              var cq := update.callbackQuery.value;
              (r.0 == WebhookErrorResponse <==> DecodeAsWritten(cq.data).action == "fix" && ConfigOf(env).Failure?)
              && (r.0 != WebhookErrorResponse ==>
                    r.0 == OkResponse && |r.1| == 2 && r.1[0] == AnswerCallbackQuery(cq.id, AckText)
                    && r.1[1].SendMessage? && r.1[1].chatId == cq.chatId)
  {
    match update.callbackQuery
    case None => (OkResponse, [])
    case Some(cq) =>
      if !Authorized(cq, env) then (UnauthorizedResponse, [])
      else
        var c := DecodeAsWritten(cq.data);
        if c.action == "fix" && ConfigOf(env).Failure? then (WebhookErrorResponse, [])
        else
          var fix := if c.action == "fix" then TriggerGitHub(ConfigOf(env).value.patMap, c.name, ManualTest, reply)
                     else TriggerResult(false, "");
          (OkResponse, [AnswerCallbackQuery(cq.id, AckText), SendMessage(cq.chatId, ReplyText(muted, c, fix))])
  }

  /** A press from another chat changes nothing and is refused. */
  lemma UnauthorizedChangesNothing(muted: seq<Option<string>>, env: Env, cq: CallbackQuery, reply: GitHubReply)
    requires !Authorized(cq, env)
    ensures WebhookMuted(muted, env, Update(Some(cq))) == muted
    ensures WebhookReply(muted, env, Update(Some(cq)), reply) == (UnauthorizedResponse, [])
  {
  }

  /** The repair button of a tunnel whose name has no `:` dispatches
      whenever the tunnel has a workflow, whatever its status and today's
      counter, and reports GitHub's answer. */
  lemma FixButtonBypassesGates(muted: seq<Option<string>>, env: Env, cq: CallbackQuery, name: string, reply: GitHubReply)
    requires Authorized(cq, env) && cq.data == CallbackData("fix", name) && ':' !in name
    requires ConfigOf(env).Success? && name in ConfigOf(env).value.patMap
    ensures var r := WebhookReply(muted, env, Update(Some(cq)), reply);
            r.0 == OkResponse && |r.1| == 2
            && r.1[1] == SendMessage(cq.chatId, if reply.HttpStatus? && reply.code == 204
                                                then "✅ 已发送 GitHub 修复请求: " + name
                                                else "❌ 修复请求失败: " + ReplyResult(reply).msg)
  {
    DecodingsAgreeWithoutColon("fix", name);
    DecodeCallbackRoundTrip("fix", name);
    var patMap := ConfigOf(env).value.patMap;
    ManualTestAlwaysDispatches(patMap, name, reply);
    var fix := TriggerGitHub(patMap, Some(name), ManualTest, reply);
    assert fix == ReplyResult(reply);
  }

  /** The mute button of a tunnel whose name has no `:` is acknowledged and
      answered with a confirmation, or with the note that the tunnel is
      muted already. */
  lemma MuteButtonReply(muted: seq<Option<string>>, env: Env, cq: CallbackQuery, name: string, reply: GitHubReply)
    requires Authorized(cq, env) && cq.data == CallbackData("mute", name) && ':' !in name
    ensures WebhookReply(muted, env, Update(Some(cq)), reply)
            == (OkResponse, [AnswerCallbackQuery(cq.id, AckText),
                             SendMessage(cq.chatId, if Some(name) in muted then AlreadyMutedMsg else MutedMsg(Some(name)))])
  {
    DecodingsAgreeWithoutColon("mute", name);
    DecodeCallbackRoundTrip("mute", name);
  }

  /** A press whose action is neither `fix` nor `mute` is acknowledged,
      answered with an empty message, and changes nothing. */
  lemma UnknownActionAcknowledged(muted: seq<Option<string>>, env: Env, cq: CallbackQuery, reply: GitHubReply)
    requires Authorized(cq, env)
    requires DecodeAsWritten(cq.data).action != "fix" && DecodeAsWritten(cq.data).action != "mute"
    ensures WebhookMuted(muted, env, Update(Some(cq))) == muted
    ensures WebhookReply(muted, env, Update(Some(cq)), reply)
            == (OkResponse, [AnswerCallbackQuery(cq.id, AckText), SendMessage(cq.chatId, "")])
  {
  }

  /** The mute button of a tunnel whose name has no `:` mutes that tunnel, once. */
  lemma MuteButtonMutes(muted: seq<Option<string>>, env: Env, cq: CallbackQuery, name: string)
    requires Authorized(cq, env) && cq.data == CallbackData("mute", name) && ':' !in name
    ensures WebhookMuted(muted, env, Update(Some(cq))) == Mute(muted, Some(name))
  {
    DecodingsAgreeWithoutColon("mute", name);
    DecodeCallbackRoundTrip("mute", name);
  }

  /** The buttons of a tunnel named `head:tail` act on the tunnel `head`:
      its mute button mutes `head`, and its repair button dispatches the
      workflow of `head`, not of the tunnel alerted on. */
  lemma ColonNameButtonsActOnHead(muted: seq<Option<string>>, env: Env, cq: CallbackQuery,
                                  head: string, tail: string)
    requires Authorized(cq, env) && ':' !in head
    ensures cq.data == CallbackData("mute", head + ":" + tail) ==>
              WebhookMuted(muted, env, Update(Some(cq))) == Mute(muted, Some(head))
    ensures cq.data == CallbackData("fix", head + ":" + tail) ==>
              DecodeAsWritten(cq.data) == Callback("fix", Some(head))
  {
    AsWrittenCutsColonNames("mute", head, tail);
    AsWrittenCutsColonNames("fix", head, tail);
  }

  /** Data without a `:` decodes to that action and no name. */
  lemma NoColonNoName(data: string)
    requires ':' !in data
    ensures DecodeAsWritten(data) == Callback(data, None)
  {
    assert JsText.IndexOfAny(data, {':'}).None?;
  }

  /** A press whose data is just `mute` mutes `undefined`, which is stored as
      a `null`, and is confirmed as such, however many `null`s the list
      already holds. */
  lemma MuteWithoutName(muted: seq<Option<string>>, env: Env, cq: CallbackQuery, reply: GitHubReply)
    requires Authorized(cq, env) && cq.data == "mute"
    ensures WebhookMuted(muted, env, Update(Some(cq))) == muted + [None]
    ensures WebhookReply(muted, env, Update(Some(cq)), reply).1
            == [AnswerCallbackQuery(cq.id, AckText),
                SendMessage(cq.chatId, "🔕 已静音: undefined (不再接收报警)")]
  {
    MuteDataHasNoName(cq.data);
    assert "mute" != "fix";
    MutedMsgUndefined();
  }

  lemma MuteDataHasNoName(data: string)
    requires data == "mute"
    ensures DecodeAsWritten(data) == Callback("mute", None)
  {
    assert forall k :: 0 <= k < |data| ==> data[k] != ':';
    NoColonNoName(data);
  }

  /** The muted list after a press when the data is cut at its first `:`
      only, so that a button always carries its whole tunnel name. */
  function IntendedMuted(muted: seq<Option<string>>, env: Env, update: Update): seq<Option<string>> {
    match update.callbackQuery
    case None => muted
    case Some(cq) =>
      var c := DecodeCallback(cq.data);
      if Authorized(cq, env) && c.action == "mute" then PressMute(muted, c.name) else muted
  }

  /** With the data cut at its first `:`, the mute button mutes the tunnel
      it was made for, whatever its name. */
  lemma IntendedMuteButtonMutes(muted: seq<Option<string>>, env: Env, cq: CallbackQuery, name: string)
    requires Authorized(cq, env) && cq.data == CallbackData("mute", name)
    ensures IntendedMuted(muted, env, Update(Some(cq))) == Mute(muted, Some(name))
  {
    DecodeCallbackRoundTrip("mute", name);
  }

  // ----- the store -----

  /** The worker's KV namespace: the muted list under `muted_tunnels` (an
      absent key reads as the empty list) and the counters under
      `trigger_stats:<name>`, keyed here by the tunnel name. */
  class TunnelKv {
    var muted: seq<Option<string>>
    var triggerStats: map<string, QuotaRecord>

    /** What the handlers keep: no tunnel name muted twice, every counter
        within the quota. */
    predicate Valid()
      reads this
    {
      NoDuplicateNames(muted) && QuotaBounded(triggerStats)
    }

    constructor()
      ensures muted == [] && triggerStats == map[]
      ensures Valid()
    {
      muted := [];
      triggerStats := map[];
    }

    /** `/toggle-mute?name=...&action=...`: reads the list, mutes or unmutes,
        and writes the list back. */
    method ToggleMute(name: Option<string>, action: Option<string>) returns (resp: HttpResponse)
      modifies this
      ensures muted == Toggled(old(muted), name, action)
      ensures triggerStats == old(triggerStats)
      ensures resp == OkResponse
      ensures old(Valid()) ==> Valid()
      ensures NoDuplicates(old(muted)) ==> NoDuplicates(muted)
    {
      var mutedList := muted;
      if action == Some("mute") && name !in mutedList {
        mutedList := mutedList + [name];
      } else if action == Some("unmute") {
        mutedList := Unmute(mutedList, name);
        if NoDuplicates(muted) {
          UnmuteNoDuplicates(muted, name);
        }
        if NoDuplicateNames(muted) {
          UnmuteKeepsNamesUnique(muted, name);
        }
      }
      muted := mutedList;
      return OkResponse;
    }

    /** The quota gate of the scheduled run for one tunnel with a workflow. */
    method TakeQuota(name: string, today: string) returns (fired: bool)
      modifies this
      ensures (fired, triggerStats) == QuotaStep(old(triggerStats), name, today)
      ensures muted == old(muted)
    {
      var stats := Current(Lookup(triggerStats, name), today);
      if stats.count < DailyQuota {
        stats := stats.(count := stats.count + 1);
        triggerStats := triggerStats[name := stats];
        fired := true;
      } else {
        fired := false;
      }
    }

    /** The loop body of the scheduled run for one entry of the merged list. */
    method HandleTunnel(mutedList: seq<Option<string>>, patMap: map<string, Target>, env: Env, today: string,
                        t: Observation) returns (step: RunResult)
      modifies this
      ensures step == TunnelStep(old(triggerStats), mutedList, patMap, env, today, t)
      ensures triggerStats == step.stats && muted == old(muted)
    {
      if t.status == Healthy || Some(t.name) in mutedList {
        return RunResult(triggerStats, [], []);
      }
      var note := NoWorkflow;
      var dispatched: seq<Observation> := [];
      var hasAction := t.name in patMap;
      if hasAction {
        var fired := TakeQuota(t.name, today);
        if fired {
          dispatched := [t];
          note := Dispatched(triggerStats[t.name].count);
        } else {
          note := Exhausted;
        }
      }
      var alerts: seq<Alert> := [];
      if Truthy(env.tgBotToken) {
        alerts := [Alert(env.tgChatId, t, note, Buttons(t.name, hasAction))];
      }
      return RunResult(triggerStats, dispatched, alerts);
    }

    /** `scheduled(event, env)`: reconciles, then walks the merged list. A
        configuration error ends the run before anything is done. */
    method Scheduled(env: Env, fetch: AccountCtx -> FetchOutcome, today: string) returns (run: RunResult)
      modifies this
      ensures muted == old(muted)
      ensures ConfigOf(env).Failure? ==> triggerStats == old(triggerStats) && run == RunResult(old(triggerStats), [], [])
      ensures ConfigOf(env).Success? ==>
                run == Run(old(triggerStats), old(muted), ConfigOf(env).value.patMap, env, today,
                           MergedAll(Grouped(ConfigOf(env).value.tunnels), fetch))
      ensures triggerStats == run.stats
      ensures old(Valid()) ==> Valid()
      ensures old(Valid()) ==> forall n :: Current(Lookup(old(triggerStats), n), today).count
                                          + CountName(run.dispatched, n) <= DailyQuota
    {
      var configResult := ValidateConfig(env);
      if configResult.Failure? {
        return RunResult(triggerStats, [], []);
      }
      var config := configResult.value;
      var data := CheckAllTunnels(config, fetch);
      var mutedList := muted;
      ghost var stats0 := triggerStats;
      var dispatched: seq<Observation> := [];
      var alerts: seq<Alert> := [];
      for i := 0 to |data.tunnels|
        invariant muted == mutedList
        invariant RunResult(triggerStats, dispatched, alerts)
                  == Run(stats0, mutedList, config.patMap, env, today, data.tunnels[..i])
      {
        var step := HandleTunnel(mutedList, config.patMap, env, today, data.tunnels[i]);
        dispatched := dispatched + step.dispatched;
        alerts := alerts + step.alerts;
        PrefixStep(data.tunnels, i);
      }
      FullPrefix(data.tunnels);
      run := RunResult(triggerStats, dispatched, alerts);
      if QuotaBounded(stats0) {
        RunCountsDispatches(stats0, mutedList, config.patMap, env, today, data.tunnels, "");
        forall n: string
          ensures Current(Lookup(stats0, n), today).count + CountName(run.dispatched, n) <= DailyQuota
        {
          RunCountsDispatches(stats0, mutedList, config.patMap, env, today, data.tunnels, n);
        }
      }
    }

    /** `/telegram-webhook`: a button press from the configured chat runs its
        action and is answered; `fix` ignores health and quota, `mute` adds
        the tunnel to the muted list. */
    method TelegramWebhook(env: Env, update: Update, reply: GitHubReply) returns (resp: HttpResponse, calls: seq<TelegramCall>)
      modifies this
      ensures muted == WebhookMuted(old(muted), env, update)
      ensures triggerStats == old(triggerStats)
      ensures (resp, calls) == WebhookReply(old(muted), env, update, reply)
      ensures old(Valid()) ==> Valid()
    {
      if update.callbackQuery.None? {
        return OkResponse, [];
      }
      var cq := update.callbackQuery.value;
      if cq.chatId != JsString(env.tgChatId) {
        return UnauthorizedResponse, [];
      }
      var c := DecodeAsWritten(cq.data);
      var replyText := "";
      if c.action == "fix" {
        var configResult := ValidateConfig(env);
        if configResult.Failure? {
          return WebhookErrorResponse, [];
        }
        var res := TriggerGitHub(configResult.value.patMap, c.name, ManualTest, reply);
        replyText := if res.success then "✅ 已发送 GitHub 修复请求: " + JsString(c.name) else "❌ 修复请求失败: " + res.msg;
      } else if c.action == "mute" {
        var mutedList := muted;
        if !Includes(mutedList, c.name) {
          mutedList := mutedList + [c.name];
          muted := mutedList;
          replyText := MutedMsg(c.name);
        } else {
          replyText := AlreadyMutedMsg;
        }
      }
      calls := [AnswerCallbackQuery(cq.id, AckText), SendMessage(cq.chatId, replyText)];
      resp := OkResponse;
    }
  }
}

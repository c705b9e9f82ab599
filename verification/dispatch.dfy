/** Remediation of Tunnel Monitor v10.0 (`_worker-1.0.js`): `triggerGitHub`
    decides whether to dispatch the repair workflow of a tunnel and reads
    GitHub's answer; the Telegram buttons carry the action and the tunnel
    name in their callback data; `/trigger-test` dispatches by hand. */
module Dispatch {

  import opened Wrappers
  import opened JsText
  import opened Observed
  import opened Inventory

  /** The status the manual paths pass, so that the health check never stops them. */
  const ManualTest: string := "MANUAL_TEST"
  /** The workflow file every dispatch names, spelled as the worker spells it. */
  const WorkflowFile: string := "mian.yml"
  const WorkflowRef: string := "main"

  const NoRuleMsg: string := "未配置 GitHub 触发规则"
  const HealthyMsg: string := "状态正常"
  const TriggeredMsg: string := "触发成功"
  const MissingNameMsg: string := "Missing name"

  /** The POST to `/repos/{owner}/{repo}/actions/workflows/{file}/dispatches`
      with the token and `{"ref": ...}`. */
  datatype DispatchCall = DispatchCall(owner: string, repo: string, pat: string, workflowFile: string, ref: string)

  /** GitHub's answer to the call: an HTTP status and body, or a network failure. */
  datatype GitHubReply = HttpStatus(code: nat, body: string) | NetworkFailure(message: string)

  /** What `triggerGitHub` resolves to. */
  datatype TriggerResult = TriggerResult(success: bool, msg: string)

  /** The number a string of decimal digits denotes. */
  function DigitsValue(s: string): nat
    requires forall i :: 0 <= i < |s| ==> '0' <= s[i] <= '9'
  {
    if |s| == 0 then 0
    else DigitsValue(s[..|s| - 1]) * 10 + (s[|s| - 1] as int - '0' as int)
  }

  /** The decimal digits of a number, as a template literal renders it:
      digits that denote the number, without a leading zero. */
  function Decimal(n: nat): (r: string)
    ensures |r| >= 1 && forall i :: 0 <= i < |r| ==> '0' <= r[i] <= '9'
    ensures DigitsValue(r) == n
    ensures r[0] == '0' ==> n == 0
  {
    if n < 10 then [('0' as int + n) as char]
    else
      var front := Decimal(n / 10);
      var last := ('0' as int + n % 10) as char;
      assert (front + [last])[..|front|] == front;
      front + [last]
  }

  /** The guard of `triggerGitHub`: the call it makes, or the failure it
      returns without calling. A tunnel without a `patMap` entry (or no name
      at all) fails first; a `healthy` status fails next. */
  function PlanDispatch(patMap: map<string, Target>, name: Option<string>, status: string)
    : (r: Result<DispatchCall, TriggerResult>)
    ensures (name.None? || name.value !in patMap) ==> r == Failure(TriggerResult(false, NoRuleMsg))
    ensures name.Some? && name.value in patMap && status == Healthy ==> r == Failure(TriggerResult(false, HealthyMsg))
    ensures r.Success? <==> name.Some? && name.value in patMap && status != Healthy
    ensures r.Success? ==> r.value.owner == patMap[name.value].owner && r.value.repo == patMap[name.value].repo
                           && r.value.pat == patMap[name.value].pat && r.value.workflowFile == WorkflowFile
                           && r.value.ref == WorkflowRef
  {
    if name.None? || name.value !in patMap then Failure(TriggerResult(false, NoRuleMsg))
    else if status == Healthy && status != ManualTest then Failure(TriggerResult(false, HealthyMsg))
    else
      var info := patMap[name.value];
      Success(DispatchCall(info.owner, info.repo, info.pat, WorkflowFile, WorkflowRef))
  }

  /** The result of a dispatch: only `204 No Content` is a success. */
  function ReplyResult(reply: GitHubReply): (r: TriggerResult)
    ensures r.success <==> reply.HttpStatus? && reply.code == 204
  {
    match reply
    case HttpStatus(code, body) =>
      if code == 204 then TriggerResult(true, TriggeredMsg)
      else TriggerResult(false, "GitHub 错误 " + Decimal(code) + ": " + body)
    case NetworkFailure(message) => TriggerResult(false, "网络错误: " + message)
  }

  /** `triggerGitHub(patMap, tunnelName, status)`; `reply` is GitHub's answer
      should the call be made. */
  function TriggerGitHub(patMap: map<string, Target>, name: Option<string>, status: string, reply: GitHubReply)
    : (r: TriggerResult)
    ensures r.success <==> PlanDispatch(patMap, name, status).Success? && reply.HttpStatus? && reply.code == 204
    ensures PlanDispatch(patMap, name, status).Failure? ==> r == PlanDispatch(patMap, name, status).error
  {
    match PlanDispatch(patMap, name, status)
    case Failure(f) => f
    case Success(_) => ReplyResult(reply)
  }

  /** A tunnel without a workflow is never dispatched, whatever its status. */
  lemma NoRuleNeverDispatches(patMap: map<string, Target>, name: string, status: string, reply: GitHubReply)
    requires name !in patMap
    ensures PlanDispatch(patMap, Some(name), status).Failure?
    ensures TriggerGitHub(patMap, Some(name), status, reply) == TriggerResult(false, NoRuleMsg)
  {
  }

  /** `MANUAL_TEST` skips the health check: a tunnel with a workflow is
      always dispatched by hand, and the answer alone decides the result. */
  lemma ManualTestAlwaysDispatches(patMap: map<string, Target>, name: string, reply: GitHubReply)
    requires name in patMap
    ensures PlanDispatch(patMap, Some(name), ManualTest).Success?
    ensures TriggerGitHub(patMap, Some(name), ManualTest, reply) == ReplyResult(reply)
  {
  }

  // ----- the callback data of the Telegram buttons -----

  /** `fix:<name>` and `mute:<name>`: the action, a `:`, then the name. */
  function CallbackData(action: string, name: string): (r: string)
    ensures |r| == |action| + 1 + |name|
    ensures r[..|action|] == action && r[|action|] == ':' && r[|action| + 1..] == name
  {
    action + ":" + name
  }

  /** What a button press decodes to; `name` is `undefined` when the data has no `:`. */
  datatype Callback = Callback(action: string, name: Option<string>)

  /** `const [action, tName] = data.split(':')`: the first two pieces of a
      split on every `:`. */
  function DecodeAsWritten(data: string): (c: Callback)
    ensures ':' !in c.action && (c.name.Some? ==> ':' !in c.name.value)
  {
    var pieces := SplitOn(data, {':'});
    Callback(pieces[0], if |pieces| > 1 then Some(pieces[1]) else None)
  }

  /** A name with a `:` comes back cut at its first `:` (`fix:hk:01` is
      read as a press of `fix` on the tunnel `hk`). */
  lemma AsWrittenCutsColonNames(action: string, head: string, tail: string)
    requires ':' !in action && ':' !in head
    ensures DecodeAsWritten(CallbackData(action, head + ":" + tail)) == Callback(action, Some(head))
    ensures DecodeAsWritten(CallbackData(action, head + ":" + tail)) != Callback(action, Some(head + ":" + tail))
  {
    var name := head + ":" + tail;
    assert CallbackData(action, name) == action + [':'] + name;
    SplitCut(action, ':', name, {':'});
    SplitCut(head, ':', tail, {':'});
    assert |name| > |head|;
  }

  /** The decoding split at the first `:` only, so that the name keeps its own colons. */
  function DecodeCallback(data: string): (c: Callback)
    ensures ':' !in c.action
    ensures c.name.None? <==> ':' !in data
  {
    match IndexOfAny(data, {':'})
    case None => Callback(data, None)
    case Some(i) => Callback(data[..i], Some(data[i + 1..]))
  }

  /** Every button decodes to the action and the name it was made with. */
  lemma DecodeCallbackRoundTrip(action: string, name: string)
    requires ':' !in action
    ensures DecodeCallback(CallbackData(action, name)) == Callback(action, Some(name))
  {
    FirstSeparator(action, ":" + name, {':'});
    assert CallbackData(action, name) == action + (":" + name);
  }

  /** On names without `:` the two decodings agree. */
  lemma DecodingsAgreeWithoutColon(action: string, name: string)
    requires ':' !in action && ':' !in name
    ensures DecodeAsWritten(CallbackData(action, name)) == DecodeCallback(CallbackData(action, name))
  {
    DecodeCallbackRoundTrip(action, name);
    SplitJoin([action, name], ':', {':'});
    assert Join([action, name], ':') == CallbackData(action, name);
  }

  // ----- the manual trigger endpoint -----

  /** A response of the worker's `fetch` handler, its JSON or text body kept as a value. */
  datatype Body = Text(text: string) | Json(result: TriggerResult)
  datatype HttpResponse = HttpResponse(status: nat, body: Body)

  /** The response the `fetch` handler's `catch` gives when `validateConfig` throws. */
  const ConfigErrorResponse: HttpResponse := HttpResponse(500, Text("Error: 未配置 ACCOUNTS_LIST"))

  /** `/trigger-test?name=...`: a dispatch by hand, neither health-checked nor counted. */
  function TriggerTest(env: Env, nameParam: Option<string>, reply: GitHubReply): (r: HttpResponse)
    ensures r.status == 500 <==> ConfigOf(env).Failure?
    ensures r.status == 400 <==> ConfigOf(env).Success? && !Truthy(nameParam)
    ensures r.status == 400 ==> r.body == Json(TriggerResult(false, MissingNameMsg))
    ensures r.status == 200 ==> r.body.Json? && ConfigOf(env).Success? && Truthy(nameParam)
    ensures r.status == 200 ==>
              (r.body.result.success <==>
                 nameParam.value in ConfigOf(env).value.patMap && reply.HttpStatus? && reply.code == 204)
  {
    match ConfigOf(env)
    case Failure(_) => ConfigErrorResponse
    case Success(config) =>
      if !Truthy(nameParam) then HttpResponse(400, Json(TriggerResult(false, MissingNameMsg)))
      else HttpResponse(200, Json(TriggerGitHub(config.patMap, nameParam, ManualTest, reply)))
  }
}

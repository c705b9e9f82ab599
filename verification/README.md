# Tunnel Monitor: reconciliation and policy engine

This project models the logic of a Cloudflare Worker that watches the Cloudflare
tunnels of several accounts. It compares them with the operator's inventory,
dispatches a GitHub repair workflow for tunnels that are down, and sends
Telegram alerts with inline buttons. Two revisions of the worker are modelled:

- `_worker.js` (v3.3):
  - `validateConfig` turns the `ACCOUNTS_LIST` setting (`alias,id,token` entries) into accounts. It rejects the whole list on one malformed entry.
  - `checkAllTunnels` folds the settled fetch of every account into one report: per-account data, counts, an error flag and alert messages.
  - `handleScheduled` decides whether that report goes to Telegram (`ALERT_ONLY_ON_ERROR`).
- `_worker-1.0.js` (v10.0):
  - `validateConfig` reads the lenient grammar `alias:id,token[,tunnel]*;GitHub:owner,repo,pat`. It skips lines it cannot read, and builds the tunnel records and the `patMap` (tunnel name to repair target).
  - `checkAllTunnels` groups the records by account and merges the observed tunnels with them.
  - `triggerGitHub` guards the workflow dispatch.
  - The KV-backed policy state has two parts:
    - the muted-tunnel list (`/toggle-mute` and the Telegram mute button);
    - the daily trigger counter (at most three automatic dispatches per tunnel and day).
  - The `scheduled` loop ties the policy state to dispatches and alerts.
  - `/telegram-webhook` handles the repair and mute buttons.
  - `/trigger-test` dispatches by hand.

Modules:

| file | module | models |
|---|---|---|
| `wrappers.dfy` | `Wrappers` | `Option`, `Result` |
| `seqs.dfy` | `Seqs` | structural identities of sequences (prefixes, appends) that the fold proofs step through |
| `jstext.dfy` | `JsText` | the JavaScript string built-ins the worker uses: `trim`, `split`, `indexOf`, `join`, `replace` |
| `observed.dfy` | `Observed` | a tunnel as the Cloudflare API reports it, and health counts |
| `strict_inventory.dfy` | `StrictInventory` | v3.3 `validateConfig` |
| `account_report.dfy` | `AccountReport` | v3.3 `checkAllTunnels` fold and `handleScheduled` gate |
| `inventory.dfy` | `Inventory` | v10 `validateConfig`: an imperative method proved equal to a specification function |
| `reconciler.dfy` | `Reconciler` | v10 `checkAllTunnels`: grouping, then merging and counting |
| `dispatch.dfy` | `Dispatch` | `triggerGitHub`, the button callback data, `/trigger-test` |
| `policy_store.dfy` | `PolicyStore` | class `TunnelKv` (the KV state) with the toggle, the quota gate, the scheduled run and the webhook |

JavaScript semantics are written out:
- truthiness: an empty string is false;
- `split` always returns at least one piece;
- `trim` strips the ECMAScript white-space set;
- `String(undefined)` is `undefined`;
- `/^GitHub:/i` matches regardless of ASCII case.

The network, the clock and the KV store are parameters:
- each account fetch is a function from the account to its settled outcome;
- GitHub's answer to a dispatch is a `GitHubReply` value;
- "today" is an opaque string;
- the KV namespace is the two fields of `TunnelKv`.

Some facts about v10 that shape the model:
- there is one permanent muted list (`muted_tunnels`), with no expiring mutes;
- the counter key is `trigger_stats:<name>`;
- the webhook authenticates by chat id only;
- the tunnels of an account whose fetch failed are dropped, not listed as errored;
- `alertOnlyOnError` is computed, but the scheduled run never reads it;
- a line that names no tunnel adds no record, so its account is never grouped, fetched or monitored, although the line is well formed.

## Model

| member | source | states |
|---|---|---|
| StrictInventory.Entries | _worker.js:25-26 | every account entry is non-empty and trimmed |
| StrictInventory.EntriesSplit | _worker.js:25-26 | a newline and a `;` both separate entries: the entries of `a`, a separator, then `b` are those of `a` followed by those of `b` |
| StrictInventory.EntriesOfPadded | _worker.js:25-26 | an entry padded with white space is read as itself, trimmed |
| StrictInventory.EntriesOfBlank | _worker.js:26 | a piece of nothing but white space yields no entry |
| StrictInventory.EntriesFullWidthComma | _worker.js:25 | a full-width `，` anywhere in the list reads as `,` |
| StrictInventory.ParseEntry | _worker.js:33-41 | an entry fails exactly when it has fewer than three comma fields, and the failure names the entry; otherwise the fields are trimmed |
| StrictInventory.ParseEntryFields | _worker.js:33-41 | an entry `x,y,z…` parses to the account of trimmed `x`, `y` and `z`; fields after the third are ignored |
| StrictInventory.ParseEntries | _worker.js:32-42 | the list parses exactly when no entry is malformed, giving one account per entry; otherwise the error is the first malformed entry |
| StrictInventory.ValidateConfig | _worker.js:19-42 | an absent or empty setting is `MissingAccountsList`; the empty-list error arises exactly when no entry remains; otherwise the result is exactly the parse of the entries, so a malformed-entry error names the first malformed entry |
| StrictInventory.AlertOnlyOnError | _worker.js:51 | the flag is off exactly when the setting is the text `false`; an unset setting leaves it on |
| StrictInventory.ParseRenderedEntry | _worker.js:33-41 | an entry written from clean fields parses back to the same account |
| StrictInventory.ValidateRenderedList | _worker.js:19-42 | a non-empty list of clean accounts, one per line, validates to exactly those accounts in order |
| Observed.HealthyPlusDown | _worker.js:83-84 | the healthy tunnels and the down tunnels together are all tunnels |
| Observed.NoneDownIffAllHealthy | _worker.js:84-85 | no tunnel is down exactly when every tunnel is `healthy` |
| AccountReport.Entry | _worker.js:75-98 | an account's entry carries its name; it has an error exactly when the fetch was rejected or reported a non-empty error, and then no tunnels |
| AccountReport.AlertFor | _worker.js:77-97 | an account adds exactly one alert when it errored or has a down tunnel, none otherwise, and the alert names the account |
| AccountReport.TallyAccount | _worker.js:74-98 | one account's turn appends its entry and its alert (if any), adds its listed and healthy tunnels to the counts, and raises the flag exactly when it is troubled |
| AccountReport.CheckAllTunnels | _worker.js:67-99 | the loop builds the per-account data, the totals, the error flag (raised exactly when some account is troubled) and the alerts |
| AccountReport.HealthyAtMostTotal | _worker.js:82-83 | the healthy count never exceeds the total |
| AccountReport.ErroredAddsNothing | _worker.js:77-80 | an errored account adds nothing to the total or the healthy count |
| AccountReport.AccountsDataFollowAccounts | _worker.js:73-98 | entry `i` belongs to configured account `i`, and an errored account has an empty tunnel list |
| AccountReport.OneAlertPerTroubledAccount | _worker.js:77-97 | the number of alerts is the number of troubled accounts |
| AccountReport.ErrorFlagIffAlerts | _worker.js:77-97 | some account is troubled exactly when there is an alert |
| AccountReport.TroubledCountPositive | _worker.js:77-97 | the troubled count is positive exactly when some account errored or has a down tunnel |
| AccountReport.ScheduledMessage | _worker.js:613-621 | with `alertOnlyOnError` and no error, nothing is sent; otherwise the alerts are sent exactly when there are any and Telegram is enabled |
| AccountReport.TelegramEnabled | _worker.js:47 | Telegram is off when the bot token or the chat id is unset or empty, and on when both are non-empty |
| AccountReport.AlertOnlyOnErrorSetting | _worker.js:51 | any setting but the text `false` silences an error-free run; `false` lets the alerts through |
| AccountReport.AlertOnlyOnErrorIsRedundant | _worker.js:613-621 | on a report built by `checkAllTunnels`, the setting never changes what is sent |
| Inventory.Normalize | _worker-1.0.js:14 | each full-width colon, comma and semicolon becomes its ASCII counterpart, and every other character is kept |
| Inventory.NormalizeIdempotent | _worker-1.0.js:14 | normalising twice is normalising once |
| Inventory.NormalizedListSameConfig | _worker-1.0.js:13-15 | a pre-normalised list gives the same configuration as the original |
| Inventory.Lines | _worker-1.0.js:15 | every line is non-empty and trimmed |
| Inventory.LinesSplit | _worker-1.0.js:14-15 | a newline separates lines: the lines of `a`, a newline, then `b` are those of `a` followed by those of `b` |
| Inventory.LinesOfOneLine | _worker-1.0.js:14-15 | a text without a newline gives its normalised text, trimmed, as its one line, or no line when that is blank |
| Inventory.StripGitHubPrefix | _worker-1.0.js:37 | the first seven characters are dropped exactly when they spell `github:` in any ASCII case; otherwise the text is kept whole |
| Inventory.StripGitHubAnyCase | _worker-1.0.js:37 | `GitHub:`, `github:` and `GITHUB:` are all stripped |
| Inventory.StripGitHubNeedsColon | _worker-1.0.js:37 | `GitHub` without the colon is not stripped |
| Inventory.ParseGitHub | _worker-1.0.js:36-42 | a GitHub target is read exactly when its segment has at least three comma fields |
| Inventory.GitHubPart | _worker-1.0.js:21-23 | a GitHub segment, when present, is non-empty |
| Inventory.CloudflarePart | _worker-1.0.js:21-22 | the Cloudflare segment is trimmed and holds no `;` |
| Inventory.SegmentsWithoutSemicolon | _worker-1.0.js:21-23 | a line without `;` is its own Cloudflare segment, trimmed, and has no GitHub segment |
| Inventory.SegmentsAtFirstSemicolon | _worker-1.0.js:21-23 | for `x;y` with no `;` in `x`: the Cloudflare segment is `x` trimmed, and the GitHub segment is the first piece of `y`, trimmed, or none when that is blank |
| Inventory.ParseMinimalLine | _worker-1.0.js:20-33 | `alias:id,token` is well formed and declares that account with no tunnel names and no workflow (so it adds no record, and the account is not monitored) |
| Inventory.OneFieldSkipped | _worker-1.0.js:24-29 | a line with only one field after the `:` is skipped |
| Inventory.ParseLine | _worker-1.0.js:20-33 | a line is skipped exactly when its first segment has no `:` or fewer than two comma fields after it; kept names are non-empty |
| Inventory.ParseSegments | _worker-1.0.js:24-42 | the same skip condition, stated on the two segments |
| Inventory.LineTunnels | _worker-1.0.js:44-46 | one record per name, in order, carrying the line's account id, token and alias |
| Inventory.LineTargets | _worker-1.0.js:47-49 | a name gets a target exactly when the line has a PAT and lists the name; the target is the line's |
| Inventory.AddLine | _worker-1.0.js:44-51 | the inner loop appends the line's records and sets its targets over the old map |
| Inventory.ApplyLine | _worker-1.0.js:20-51 | one iteration adds the records and targets of the parsed line, or nothing for a skipped line |
| Inventory.ConfigureLines | _worker-1.0.js:17-52 | the loop leaves exactly the records and the map of the fold over the parsed lines |
| Inventory.ConfigOf | _worker-1.0.js:12-63 | a missing or empty list is the only error; Telegram is enabled exactly when token and chat id are set; `alertOnlyOnError` unless the setting is `false` |
| Inventory.ValidateConfig | _worker-1.0.js:12-63 | the imperative `validateConfig` returns exactly `ConfigOf` |
| Inventory.SkippedLineAddsNothing | _worker-1.0.js:24-29 | a skipped line adds no record and no target, and raises no error |
| Inventory.PatMapDomain | _worker-1.0.js:36-49 | a name is in `patMap` exactly when some line lists it with a GitHub segment of at least three fields and a non-empty PAT |
| Inventory.PatMapLastWins | _worker-1.0.js:47-49 | for a name set by several lines, the last such line's target wins |
| Inventory.RecordsComeFromLines | _worker-1.0.js:44-46 | every record comes from a parsed line that lists its name, with that line's fields |
| Inventory.LineNamesRecorded | _worker-1.0.js:44-46 | every name of every parsed line has its record |
| Inventory.OneRecordPerName | _worker-1.0.js:31-33 | the number of records equals the number of non-empty names on valid lines |
| Inventory.ParseRenderedGitHub | _worker-1.0.js:36-42 | a written GitHub segment parses back to its owner, repo and PAT |
| Inventory.ParseRenderedLine | _worker-1.0.js:20-42 | a line written from clean fields parses back to the same declaration |
| Inventory.LinesOfRenderedList | _worker-1.0.js:14-15 | a list written one declaration per line splits back into exactly those lines |
| Inventory.RenderedListConfig | _worker-1.0.js:12-63 | a written list configures exactly the records and targets of its declarations |
| Reconciler.FindGroup | _worker-1.0.js:70 | the lookup finds the group of an account id exactly when one exists |
| Reconciler.GroupAccounts | _worker-1.0.js:68-74 | the grouping loop builds exactly `Grouped` |
| Reconciler.AddTunnelShape | _worker-1.0.js:69-73 | a tunnel of an account without a group opens one with that tunnel's token and alias; existing groups keep their account, token and alias |
| Reconciler.GroupedOpenedByFirst | _worker-1.0.js:69-73 | every group carries the token and alias of its account's first configured tunnel |
| Reconciler.GroupedIds | _worker-1.0.js:68-74 | every record's account has a group, and no account has two |
| Reconciler.GroupedMembers | _worker-1.0.js:70-73 | a group holds exactly its account's records, in order; its token and alias come from the first record |
| Reconciler.ConfigMapLastWins | _worker-1.0.js:84 | the config map has a name exactly when a record does, and holds the last such record |
| Reconciler.ObservationOf | _worker-1.0.js:87-93 | an entry keeps the observed name, id and status with the account alias; a configured name takes that record's `githubOwner` and `githubRepo`, an unconfigured one has neither |
| Reconciler.Merged | _worker-1.0.js:81-95 | an errored account contributes nothing; otherwise one entry per observed tunnel, in order |
| Reconciler.MergeAccount | _worker-1.0.js:81-95 | the inner loop appends the account's entries and keeps both counters in step |
| Reconciler.CheckAllTunnels | _worker-1.0.js:67-99 | the result is the merge of the groups in order; `total` is its length and `healthy` its healthy entries |
| Reconciler.StatsCountListed | _worker-1.0.js:80-98 | the counts are those of the non-errored accounts' observed tunnels, and `healthy <= total` |
| Reconciler.ErroredAddsNothing | _worker-1.0.js:83 | an errored account adds no entry |
| Dispatch.PlanDispatch | _worker-1.0.js:113-132 | no target gives the "no rule" failure; a `healthy` status gives the "status normal" failure; otherwise the call uses the target's owner, repo, PAT, `mian.yml` and the ref `main` |
| Dispatch.Decimal | _worker-1.0.js:139 | the status is rendered as decimal digits that denote it, with no leading zero |
| Dispatch.ReplyResult | _worker-1.0.js:135-143 | only a 204 answer is a success |
| Dispatch.TriggerGitHub | _worker-1.0.js:113-144 | success exactly when the guard passes and GitHub answers 204; a guard failure is returned unchanged |
| Dispatch.NoRuleNeverDispatches | _worker-1.0.js:114-115 | a tunnel without a target is never dispatched, whatever its status |
| Dispatch.ManualTestAlwaysDispatches | _worker-1.0.js:116-117 | `MANUAL_TEST` passes the guard for any tunnel with a target |
| Dispatch.DecodeAsWritten | _worker-1.0.js:182 | neither decoded part contains a `:` |
| Dispatch.AsWrittenCutsColonNames | _worker-1.0.js:182 | a button made for a tunnel `head:tail` (no `:` in the action or in `head`) decodes to tunnel `head`, never to its own name |
| Dispatch.CallbackData | _worker-1.0.js:154-156 | the button data is the action, a `:`, then the tunnel name |
| Dispatch.DecodeCallback | _worker-1.0.js:182 | the corrected decoding, not the code at this line: cutting at the first `:` only, the action has no `:`, and there is no name exactly when the data has no `:` |
| Dispatch.DecodeCallbackRoundTrip | _worker-1.0.js:154-156 | every button's data decodes to its action and its full tunnel name |
| Dispatch.DecodingsAgreeWithoutColon | _worker-1.0.js:182 | for names without `:` both decodings agree |
| Dispatch.TriggerTest | _worker-1.0.js:447-453 | 500 exactly on a configuration error; 400 "Missing name" exactly without a name; otherwise success exactly when the name has a target and GitHub answers 204 |
| PolicyStore.Mute | _worker-1.0.js:194-195 | afterwards the name is muted; an already muted name leaves the list as it was; otherwise it is appended |
| PolicyStore.Unmute | _worker-1.0.js:441 | afterwards the name is not in the list |
| PolicyStore.MuteIdempotent | _worker-1.0.js:440 | muting twice is muting once |
| PolicyStore.MutePreservesOrder | _worker-1.0.js:440 | muting keeps the list duplicate-free and the earlier entries in place |
| PolicyStore.Toggled | _worker-1.0.js:440-441 | the toggle's `mute` is `Mute`, `unmute` is `Unmute`, any other action keeps the list |
| PolicyStore.UnmuteKeepsOthers | _worker-1.0.js:441 | unmuting removes every occurrence of the name and keeps every other entry as often as before |
| PolicyStore.UnmuteDistributes | _worker-1.0.js:441 | unmuting works piece by piece, so the other entries keep their relative order |
| PolicyStore.UnmuteAbsent | _worker-1.0.js:441 | unmuting a name that is not muted changes nothing |
| PolicyStore.UnmuteUndoesMute | _worker-1.0.js:440-441 | unmuting is idempotent and undoes a mute |
| PolicyStore.UnmuteNoDuplicates | _worker-1.0.js:441 | unmuting keeps the list duplicate-free |
| PolicyStore.Includes | _worker-1.0.js:194 | a press without a name (`undefined`) is included in no list, even one holding a `null`; a name is included exactly when it is in the list |
| PolicyStore.WebhookMuted | _worker-1.0.js:180-196 | a press only ever appends one entry to the muted list, a new name or a `null`, and only when it comes from the configured chat with the action `mute` |
| PolicyStore.PressMute | _worker-1.0.js:193-195 | the webhook's mute of a name is `Mute`; a press without a name appends a `null` every time |
| PolicyStore.PressMuteRepeatsNull | _worker-1.0.js:193-195 | on a list that already holds a `null`, a press without a name appends another, so the list has a duplicate |
| PolicyStore.MuteKeepsNamesUnique | _worker-1.0.js:193-195 | both mutes keep every tunnel name unique in the list |
| PolicyStore.UnmuteKeepsNamesUnique | _worker-1.0.js:441 | unmuting keeps every tunnel name unique in the list |
| PolicyStore.Current | _worker-1.0.js:399-401 | the working counter is dated today, and is zero when none is stored or it is from another day |
| PolicyStore.QuotaStep | _worker-1.0.js:397-412 | dispatches exactly when today's count is below 3, then stores count plus one for today; otherwise stores nothing |
| PolicyStore.QuotaStepBounded | _worker-1.0.js:403-407 | no stored counter ever exceeds 3 |
| PolicyStore.NewDayResets | _worker-1.0.js:399-401 | a counter from another day lets the run dispatch and restarts at 1 |
| PolicyStore.FiresInDayIsCapped | _worker-1.0.js:397-412 | `k` passes in one day dispatch exactly `min(k, 3 - count)` times |
| PolicyStore.Buttons | _worker-1.0.js:148-157 | a repair button only when the tunnel has a workflow, and always a mute button, with data `fix:` or `mute:` plus the name |
| PolicyStore.NoteFor | _worker-1.0.js:392-411 | no workflow, a dispatch with today's count plus one, or an exhausted quota, each exactly in its case |
| PolicyStore.QuotaAfter | _worker-1.0.js:396-411 | the counters after a down, unmuted tunnel: today's count plus one when dispatched, unchanged otherwise |
| PolicyStore.TunnelStep | _worker-1.0.js:388-421 | a healthy or muted tunnel is skipped entirely; a down, unmuted one is dispatched exactly when it has a workflow and today's count is below 3, the counters change only then, and with a bot token it gets exactly one alert with its note and buttons (none without a token) |
| PolicyStore.Run | _worker-1.0.js:387-422 | a run makes at most one dispatch and one alert per entry of the merged list |
| PolicyStore.RunAlertsEveryDownTunnel | _worker-1.0.js:387-421 | with a bot token, the run alerts on exactly the down, unmuted entries, once each and in order |
| PolicyStore.RunDispatchesUpToQuota | _worker-1.0.js:387-412 | a run dispatches a tunnel exactly `min(eligible entries, 3 - today's count)` times |
| PolicyStore.StepDispatchCount | _worker-1.0.js:390-406 | one entry dispatches a tunnel once exactly when it is that tunnel, is down, not muted, has a workflow and finds room today |
| PolicyStore.RunDispatchesOnlyEligible | _worker-1.0.js:387-421 | dispatched tunnels are down, not muted, have a target and pass the guard; alerted tunnels are down and not muted |
| PolicyStore.NoTokenNoAlerts | _worker-1.0.js:416 | without a bot token no alert is sent |
| PolicyStore.RunCountsDispatches | _worker-1.0.js:394-412 | a run raises a tunnel's count for today by exactly its dispatches, and count plus dispatches never exceeds 3 |
| PolicyStore.WebhookReply | _worker-1.0.js:170-218 | with the data split on every `:` as written, a press from another chat gets 403 and nothing else; an update without a callback gets OK and no call; an authorised press gets 500 exactly when its action is `fix` and the configuration is invalid, and otherwise gets OK, the acknowledgement `操作已接收`, and then one message to the same chat; any non-OK response makes no Telegram call |
| PolicyStore.Authorized | _worker-1.0.js:180 | a press is accepted exactly when its chat id equals the configured one, or equals `undefined` when none is configured |
| PolicyStore.ReplyText | _worker-1.0.js:186-200 | an unknown action replies with nothing; a mute replies "already muted" exactly when the list includes the name, and otherwise confirms the mute of that name |
| PolicyStore.UnauthorizedChangesNothing | _worker-1.0.js:180 | a press from another chat leaves the muted list as it was and is refused with 403 |
| PolicyStore.FixButtonBypassesGates | _worker-1.0.js:182-190 | for a tunnel name without `:`, the repair button dispatches any tunnel with a target, whatever its health and counter, and reports GitHub's answer |
| PolicyStore.MuteButtonReply | _worker-1.0.js:182-212 | for a tunnel name without `:`, the mute button is acknowledged and answered with the confirmation for that name, or with "already muted" when the list holds it |
| PolicyStore.UnknownActionAcknowledged | _worker-1.0.js:182-214 | a press whose action is neither `fix` nor `mute` leaves the list alone and gets OK, the acknowledgement and an empty message |
| PolicyStore.MuteButtonMutes | _worker-1.0.js:182-200 | for a tunnel name without `:`, the mute button mutes the tunnel it was made for |
| PolicyStore.ColonNameButtonsActOnHead | _worker-1.0.js:182-200 | the buttons of a tunnel `head:tail` act on the tunnel `head`: its mute button mutes `head`, its repair button asks for `head` |
| PolicyStore.MuteWithoutName | _worker-1.0.js:182-200 | data `mute` with no name appends a `null` and is confirmed as a mute of `undefined` |
| PolicyStore.IntendedMuteButtonMutes | _worker-1.0.js:182 | with the corrected decoding, the mute button mutes the tunnel it was made for, whatever its name |
| PolicyStore.TunnelKv.constructor | _worker-1.0.js:439 | an empty store, whose absent muted-list key reads as the empty list, keeps the invariants |
| PolicyStore.TunnelKv.ToggleMute | _worker-1.0.js:436-444 | writes back the toggled list, touches no counter, answers OK, keeps the invariants, and keeps a duplicate-free list duplicate-free |
| PolicyStore.TunnelKv.TakeQuota | _worker-1.0.js:396-412 | reads, resets, increments and writes the counter as `QuotaStep` says |
| PolicyStore.TunnelKv.HandleTunnel | _worker-1.0.js:388-421 | one iteration of the scheduled loop does exactly `TunnelStep` |
| PolicyStore.TunnelKv.Scheduled | _worker-1.0.js:379-424 | a configuration error changes nothing; otherwise the run is `Run` over the reconciled tunnels, the muted list is untouched, and the invariants hold; from a valid store, no tunnel's count for today plus its dispatches in the run exceeds 3 |
| PolicyStore.TunnelKv.TelegramWebhook | _worker-1.0.js:170-218 | the muted list and the reply are those of the press, with the data split on every `:`; counters are never touched; no tunnel name is muted twice |

## Left out

- The HTTP calls to Cloudflare, GitHub and Telegram, and the `AbortController` timeout of v3.3, are left out. A fetch is a function from the account to its settled outcome, and GitHub's answer is a value.
- `Promise.allSettled` concurrency is left out. The outcomes are taken in account order.
- Concurrent handlers racing on the same KV key are not modelled. Each handler runs alone against the store.
- The KV store is two typed fields, so `JSON.parse`/`JSON.stringify`, KV failures and a corrupt stored value are not modelled.
- An absent `muted_tunnels` key and an empty list read alike and are not told apart.
- The date is an opaque parameter. The `Asia/Shanghai` formatting is not modelled.
- The alert text, its Markdown and the prose of every message are out. The model keeps what each alert is about: the tunnel, the trigger note and the buttons. The webhook's reply texts are kept.
- `console.log`/`console.error` are out.
- The HTML dashboards, the main-page route and the client-side script are not part of this model.
- `fetchAccountData` and `fetchTunnelsWithAccount` (building the request, reading `json.success`) are not part of this model. Their outcome is an input.
- The webhook's `request.json()` failure and a callback without `message.chat` are out. The update arrives parsed, with the chat id as its decimal text.
- The v3.3 `fetch` handler and `sendTelegramMessage` are not part of this model, except for the gate in `handleScheduled`.
- StrictInventory.Entries: its own contract says only that entries are non-empty and trimmed. Which characters separate entries, and what becomes of padding and blank pieces, is stated by StrictInventory.EntriesSplit, StrictInventory.EntriesOfPadded and StrictInventory.EntriesOfBlank.
- Inventory.Lines: its own contract says only that lines are non-empty and trimmed. Which lines a text yields is stated by Inventory.LinesSplit and Inventory.LinesOfOneLine.
- Inventory.CloudflarePart: its own contract says only that the segment is trimmed and holds no `;`. Its value is stated by Inventory.SegmentsWithoutSemicolon and Inventory.SegmentsAtFirstSemicolon.
- Inventory.GitHubPart: its own contract says only that a segment, when present, is non-empty. Its value is stated by Inventory.SegmentsWithoutSemicolon and Inventory.SegmentsAtFirstSemicolon.
- StrictInventory.ParseEntry: its own contract gives the failure case and trimmed fields. The account an entry yields is stated by StrictInventory.ParseEntryFields.
- A callback query without `data` is out. In the code, `data.split` then throws and the webhook answers 500.
- PolicyStore.TunnelKv.Scheduled: a Telegram send that fails is not modelled. In the code, the loop awaits each `sendTelegramAlert` with no local `try`, so the first failed send ends the run, and the later tunnels get no dispatch and no alert. The model always walks the whole list.
- PolicyStore.TunnelKv.TelegramWebhook: a failed `answerCallbackQuery` or `sendMessage` is not modelled. In the code, either failure answers 500 after the mute has been written. The model always answers OK once the action has run.
- PolicyStore.TunnelKv.Valid: no tunnel name is muted twice, but `null` entries may repeat, because a press without a name appends one each time.
- Inventory.ParseLine: the model folds the parsed lines. `validateConfig`'s own loop is `Inventory.ConfigureLines`, which is proved equal to that fold.

## Findings

| source | as written | input that shows it | evidently intended | confidence | as-written member | corrected member |
|---|---|---|---|---|---|---|
| _worker-1.0.js:182 | `data.split(':')` keeps only the first two pieces, so a tunnel name containing `:` is cut at its first colon. The inventory grammar accepts such names, because only the first `:` of a line is significant. | the repair button of tunnel `hk:01` sends `fix:hk:01`, which decodes to tunnel `hk`; the same happens for every name `head:tail` | split at the first `:` only, so that the name comes back whole; the webhook is modelled as written, and `PolicyStore.IntendedMuted` is the mute with the corrected decoding | low, not executed | Dispatch.AsWrittenCutsColonNames | Dispatch.DecodeCallbackRoundTrip |

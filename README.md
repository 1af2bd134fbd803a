# EcoFlow battery monitor — a Dafny model of its control loop

`monitor.py` is a daemon that polls the EcoFlow cloud API for a battery's
state of charge and drives a Kasa smart plug (the relay that feeds AC power
to the charger) with a hysteresis rule: switch on below 20 %, switch off
above 50 %, do nothing in between. It authenticates with a bearer token
built from the `TOKEN` setting and renews it once when the API answers 401.
It was written to e-mail the operator on failures, but as written no failure
reaches `send_email`: the login e-mail (line 57) follows the `NameError` at
line 34, the status e-mail (line 87) follows the `TypeError` at line 86, and
the Kasa e-mail (line 124) needs a word other than "on" or "off", which the
loop never passes. `RunNeverNotifiesWithTokenSetting` proves this for every
run. Its login path, meant for when `TOKEN` is not set, cannot run as
written (see "## Findings").

This project models that loop and proves what it does:

- `outcome.dfy` (module `Outcome`): the calls the program makes to the
  outside world (`Login`, `Poll(credential)`, `Relay(command)`,
  `Notify(message)`), the uncaught exceptions that end the process
  (`Fault`), and how a computation finishes (`Flow`: done, exited, crashed).
- `token.dfy` (module `Token`): `get_token` — the `"Bearer "` prefix and the
  login outcome.
- `battery.dfy` (module `Battery`): `get_battery_level` — classification of
  the HTTP status into state of charge, "unauthorized", or a crash.
- `plug.dfy` (module `Plug`): `get_plug` and `set_plug` — the words `"on"` /
  `"off"` the loop stores, and the relay commands.
- `monitor.dfy` (module `Monitor`): the loop itself. `Step` is the
  specification of one iteration, built from `PollWithRetry` (lines 131-134)
  and `Thresholds` (lines 135-142); `Hysteresis` is the rule stated on its
  own; `RunFrom` runs the loop over a finite sequence of iterations. The
  class `ControlLoop` holds the program's two globals, `authtoken` and
  `ac_state`, plus the calls made so far, and its methods `PollWithRenewal`,
  `Iterate` and `Run` execute the loop statement by statement and are proved
  to agree with `Step` and `RunFrom`.
- `properties.dfy` (module `LoopProperties`): the properties of the loop —
  dead zone, switching, idempotence, at most one command per iteration,
  exactly one renewal and one retry after a 401, alternation of commands over
  a whole run, and the scenario 30, 15, 10, 55, 45.

The outside world enters as data. Each iteration is a `Tick`: the answer to
the first poll, the answers of the logins that `get_token` may make (the
discarded call at line 78, the renewal at line 133, the discarded call inside
the retried poll), the answer to the retried poll, and whether the plug can
be reached. Answers that an iteration does not ask for are ignored.

Behaviour of the code that the model keeps as written:

- Line 78 calls `get_token()` inside `get_battery_level` and discards the
  result. With the `TOKEN` setting this call has no effect.
- Line 86 concatenates a string with the integer status code. This raises
  `TypeError` before the e-mail at line 87 is sent, so an unexpected status
  ends the process (`Crash(StatusConcat)`) without notifying anyone.
- Line 135 compares `current_level` with 20. When the retried poll is again
  "unauthorized", that compares a string with an integer, which raises: the
  model ends the process with `Crash(CompareUnauthorized)`.
- Lines 137 and 141 assign `ac_state` before `set_plug` runs. When the plug
  cannot be reached, the believed state has already changed, and the
  uncaught exception then ends the process.
- A 200 answer without `data.bound[SERIAL].soc` raises `KeyError`
  (`Crash(SocMissing)`).

As written, the program with no `TOKEN` setting stops at line 126: the
login branch of `get_token` raises `NameError` at line 34, before any
request (`Token.GetTokenAsWritten`). The model goes on with `get_token` as
its login branch is evidently meant to work (`Token.GetToken`, the corrected
member of "## Findings"), so that the login path can be modelled at all. The
following holds only for that corrected `get_token`, when `TOKEN` is not set:

- Each call of `get_token` is one login. A refused login e-mails
  "COULD NOT GET NEW AUTH TOKEN!" and exits (lines 55-58); a 200 without
  `data.token` raises `KeyError` (`Crash(TokenMissing)`).
- The discarded call at line 78 is then a real login, which can exit the
  process; so a 401 costs two logins before the retry.

This `monitor.py` has no transient-error class (a malformed 200 crashes, as
above), no logging, no disabled-relay mode (the `PLUG` setting is required)
and no signal handling.

`Commands`, `Polls` and `Notices` in `Outcome` pick one kind of call out of a
call sequence. Their length bound is bookkeeping; what matters about them is
that they distribute over concatenation (the `*Append` lemmas).

## Model

| member | source | states |
|---|---|---|
| Token.Bearer | monitor.py:30 | the credential is a bearer credential whose raw part is exactly the given token |
| Token.BearerOfRaw | monitor.py:30 | every bearer credential is the prefix followed by its raw part (round trip with `RawOf`) |
| Token.BearerInjective | monitor.py:61 | two credentials are equal exactly when their raw tokens are |
| Token.GetToken | monitor.py:28-63 | as intended (corrected member of "## Findings"): a `TOKEN` setting gives `"Bearer " + TOKEN` with no network call; otherwise one login: a non-200 notifies "COULD NOT GET NEW AUTH TOKEN!" and exits, a 200 gives `"Bearer " + data.token` (or crashes if absent); any returned credential is a bearer credential |
| Token.GetTokenAsWritten | monitor.py:28-44 | as written, the login branch always crashes (`json` is undefined) before any request; with a `TOKEN` setting it agrees with `GetToken` |
| Token.AsWrittenLoginNeverSucceeds | monitor.py:32-61 | a login that answers 200 with a token still crashes as written, and gives `"Bearer " + token` once the payload can be built |
| Token.TokenIsPrefixedRaw | monitor.py:30-61 | a returned credential starts with "Bearer " and its rest is the raw token from the setting or from the login answer |
| Battery.Classify | monitor.py:77-85 | the status classes are exhaustive and disjoint: 401, 200, and every other code (kept as the code) |
| Battery.GetBatteryLevel | monitor.py:66-88 | the call polls first with the given credential; 401 adds the discarded `get_token`'s calls and returns "unauthorized", or exits or crashes exactly as that call does; 200 returns `soc` or crashes if absent; any other status crashes with no further call |
| Battery.OnePollPerCall | monitor.py:76-84 | every call polls exactly once, with its credential, never switches the relay, and returns "unauthorized" only for a 401 |
| Battery.UnexpectedStatusNeverNotifies | monitor.py:85-88 | an unexpected status ends the process without any e-mail |
| Plug.Word | monitor.py:108-111 | the word is "on" exactly when the plug is on, and always "on" or "off" |
| Plug.Target | monitor.py:116-121 | the "on" command brings the plug to "on" and the "off" command to "off" |
| Plug.GetPlug | monitor.py:105-111 | a reachable plug gives its word; an unreachable one crashes |
| Plug.SetPlug | monitor.py:113-124 | an unreachable plug crashes with no command; "on"/"off" issue exactly the command for that word; any other word only notifies "An issue with the Kasa Plug occurred!" |
| Plug.SetPlugCommands | monitor.py:116-121 | `set_plug` with a word issues one command that reaches that word when the plug is reachable, none otherwise, and never notifies |
| Monitor.RunFrom | monitor.py:130-143 | the loop consumes the iterations in order and stops only when one ends the process |
| Monitor.Boot | monitor.py:126-128 | start-up makes exactly the calls of `get_token`; it succeeds exactly when the token is obtained and the plug is reachable, and then believes the plug's word with a bearer credential; otherwise it exits or crashes as `get_token` does, or crashes with `RelayUnreachable` when the plug cannot be reached |
| Monitor.ControlLoop.constructor | monitor.py:126-128 | the loop starts running from a given valid state (such as the one `Boot` returns, which its `ensures ValidState` makes acceptable) with no calls recorded |
| Monitor.ControlLoop.PollWithRenewal | monitor.py:131-134 | the statements of lines 131-134 update the credential and the calls exactly as `PollWithRetry` specifies |
| Monitor.ControlLoop.Iterate | monitor.py:131-142 | one iteration executed statement by statement leaves the globals, the calls and the status that `Step` specifies, and keeps the globals valid |
| Monitor.ControlLoop.Run | monitor.py:130-143 | the loop over a sequence of iterations ends in the state, calls, status and count that `RunFrom` specifies |
| Monitor.Hysteresis | monitor.py:135-142 | below 20 and believed off the rule switches on; above 50 and believed on it switches off; it never switches between 20 and 50, never commands the state already believed, and below 20 can only switch on, above 50 only off |
| Monitor.PollWithRetry | monitor.py:131-134 | no contract of its own; specified by PollingIssuesNoCommands, NoRetryWithoutUnauthorized, UnauthorizedRenewsThenRetriesOnce, UnauthorizedWithTokenSetting, UnauthorizedWithLogin and FailedRenewalExits, and executed by ControlLoop.PollWithRenewal |
| Monitor.Switch | monitor.py:137-138 | no contract of its own (also lines 141-142); specified, through Thresholds, by StepFollowsHysteresis and BelievedStateChangesBeforeRelay |
| Monitor.Thresholds | monitor.py:135-142 | no contract of its own; specified by StepFollowsHysteresis, DeadZone, SwitchOnBelowLow, SwitchOffAboveHigh, AlreadyInTargetState and AtMostOneCommand |
| Monitor.Step | monitor.py:131-143 | no contract of its own; specified by StepFollowsHysteresis, StepCommandShape, StepKeepsValid, SecondUnauthorizedCrashes, UnexpectedStatusCrashesSilently, MissingSocCrashes and StepNeverNotifiesWithTokenSetting, and executed by ControlLoop.Iterate |
| Monitor.StepKeepsValid | monitor.py:130-143 | the credential stays a bearer credential and `ac_state` stays "on" or "off" |
| LoopProperties.PollingIssuesNoCommands | monitor.py:131-134 | `PollWithRetry` (polling with renewal) never switches the relay and polls once or twice, first with the current credential |
| LoopProperties.TokenCallsNeitherPollNorSwitch | monitor.py:28-63 | `get_token` never polls and never switches the relay |
| LoopProperties.NoRetryWithoutUnauthorized | monitor.py:131-132 | without a 401 there is exactly one poll and the credential is kept |
| LoopProperties.UnauthorizedRenewsThenRetriesOnce | monitor.py:132-134 | after a 401 the credential is renewed once and exactly one more poll is made, with the renewed credential, whose answer is what the thresholds see |
| LoopProperties.UnauthorizedWithTokenSetting | monitor.py:132-134 | with a `TOKEN` setting a 401 costs exactly one extra poll and nothing else |
| LoopProperties.UnauthorizedWithLogin | monitor.py:77-79 | with the corrected `get_token` and no `TOKEN` setting, a 401 is followed by the discarded login, the renewal login and the retried poll with the new credential, in that order, and when the retried poll is not another 401 those four calls are all the calls |
| LoopProperties.FailedRenewalExits | monitor.py:133 | with the corrected `get_token`, a refused renewal sends one e-mail and exits without retrying the poll |
| LoopProperties.LoginTrace | monitor.py:55-58 | helper of FailedRenewalExits: the call sequence poll, login, login, e-mail contains exactly one poll and one e-mail |
| LoopProperties.StepFollowsHysteresis | monitor.py:135-142 | `Step`, through `Thresholds` and `Switch`, agrees with `Hysteresis`: an iteration switches exactly when the hysteresis rule says so, to the rule's target, which becomes the believed state even when the plug is unreachable |
| LoopProperties.DeadZone | monitor.py:135-142 | for 20 ≤ level ≤ 50 the believed state is unchanged and no command is sent |
| LoopProperties.SwitchOnBelowLow | monitor.py:135-138 | below 20 with the relay believed off: believed on and exactly one "on" command |
| LoopProperties.SwitchOffAboveHigh | monitor.py:139-142 | above 50 with the relay believed on: believed off and exactly one "off" command |
| LoopProperties.AlreadyInTargetState | monitor.py:135-139 | on with level below 20, or off with level above 50: nothing is sent and nothing changes |
| LoopProperties.BelievedStateChangesBeforeRelay | monitor.py:137-138 | an unreachable plug leaves "on" believed with no command sent, and the process ends |
| LoopProperties.StepCommandShape | monitor.py:131-142 | whatever the answers, `Step` sends no command, or one that moves away from the believed state and becomes the believed state |
| LoopProperties.AtMostOneCommand | monitor.py:135-142 | at most one relay command per iteration, whatever the answers |
| LoopProperties.SecondUnauthorizedCrashes | monitor.py:134-135 | a second "unauthorized" ends the process at the comparison, with no command and the believed state unchanged |
| LoopProperties.UnexpectedStatusCrashesSilently | monitor.py:85-88 | an unexpected status ends the iteration after one poll, with nothing changed and no e-mail |
| LoopProperties.MissingSocCrashes | monitor.py:80-82 | a 200 without a state of charge ends the process after one poll |
| LoopProperties.RunAlternates | monitor.py:130-143 | over any run, successive commands alternate, the first one moving away from the initial believed state |
| LoopProperties.StepNeverNotifiesWithTokenSetting | monitor.py:131-142 | with a `TOKEN` setting an iteration never e-mails the operator, whatever the answers |
| LoopProperties.RunNeverNotifiesWithTokenSetting | monitor.py:130-143 | with a `TOKEN` setting, the only configuration that gets past start-up as written, no run ever e-mails the operator |
| LoopProperties.RunKeepsValid | monitor.py:130-143 | over any run the credential stays a bearer credential and `ac_state` stays "on" or "off" |
| LoopProperties.ReadingStep | monitor.py:131-142 | an iteration whose poll answers 200 polls once, then sends the hysteresis rule's command, if any, and believes its target |
| LoopProperties.ScenarioTail | monitor.py:130-143 | readings 10, 55, 45 from "on" send only "off" (at 55) |
| LoopProperties.ScenarioOnThenOff | monitor.py:130-143 | readings 30, 15, 10, 55, 45 from "off" poll five times and send exactly "on" (at 15) then "off" (at 55), ending believed off |
| LoopProperties.ScenarioCommands | monitor.py:135-142 | helper of ScenarioOnThenOff: the relay commands in that scenario's call sequence are "on" then "off" |
| LoopProperties.StartupLoginFailure | monitor.py:126 | with the corrected `get_token`, a refused login at start-up sends exactly one e-mail and exits before any poll |
| LoopProperties.StartupWithTokenSetting | monitor.py:126-128 | with a `TOKEN` setting start-up makes no call, whatever the login endpoint would answer, and believes the plug's word |

## Findings

| source | as written | input that shows it | evidently intended | confidence | as-written member | corrected member |
|---|---|---|---|---|---|---|
| monitor.py:34 | the login branch of `get_token` calls `json.dumps`, but `json` is never imported (lines 3-12), so it raises `NameError` before the login request | no `TOKEN` setting, login endpoint that would answer 200 with a token | log in and return `"Bearer " + data.token`; notify and exit on a non-200 | high (not executed) | Token.GetTokenAsWritten, Token.AsWrittenLoginNeverSucceeds | Token.GetToken, Token.TokenIsPrefixedRaw |

The rest of the model uses `Token.GetToken`, so that the login path, its
failure e-mail and the renewal after a 401 can be modelled at all.

## Left out

- HTTP requests, JSON decoding and the request headers and payload fields (lines 32-54, 68-76): each answer is an input (`Battery.Response`, `Token.LoginResponse`).
- The SendGrid e-mail (lines 90-103): modelled only as a `Notify` call that always returns. A send that fails is not modelled; its handler at line 103 reads `e.message`, which Python 3 exceptions lack, so such a failure would itself raise.
- The Kasa plug protocol, `asyncio.run` and the Windows event-loop policy (lines 22-23, 105-124, 127): a plug is reachable or not; any failure of `update`, `turn_on` or `turn_off` is one `RelayUnreachable` crash.
- Loading the settings (lines 14-20): only the presence of `TOKEN` changes behaviour and is `Config`; a missing required setting stops the program before the model starts.
- `time.sleep(60)` (line 143) and the endless `while True`: the loop runs over a finite sequence of iterations.
- `print` and the timestamp formatting (lines 56, 62, 83, 118, 121, 123, 128): console output only.
- `exit()` (lines 58, 88): an `Exited` outcome, not process behaviour.
- State of charge is any integer: the service's 0-100 range is not enforced by the code and not assumed here.

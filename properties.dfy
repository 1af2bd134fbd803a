/** What the control loop of monitor.py guarantees, proved about the model in
    module Monitor. */
module LoopProperties {
  import opened Outcome
  import Token
  import Battery
  import Plug
  import opened Monitor

  // ---------------------------------------------------------------------
  // Polling with one renewal (lines 131-134)
  // ---------------------------------------------------------------------

  /** Polling never switches the relay, and polls at most twice. */
  lemma {:induction false} PollingIssuesNoCommands(cfg: Config, a: string, t: Tick)
    ensures Commands(PollWithRetry(cfg, a, t).effects) == []
    ensures 1 <= |Polls(PollWithRetry(cfg, a, t).effects)| <= 2
    ensures Polls(PollWithRetry(cfg, a, t).effects)[0] == a
  {
    var first := Battery.GetBatteryLevel(cfg.envToken, a, t.poll, t.pollLogin);
    Battery.OnePollPerCall(cfg.envToken, a, t.poll, t.pollLogin);
    if first.flow == Done(Battery.Unauthorized) {
      var renewed := Token.GetToken(cfg.envToken, t.renewLogin);
      TokenCallsNeitherPollNorSwitch(cfg.envToken, t.renewLogin);
      CommandsAppend(first.effects, renewed.effects);
      PollsAppend(first.effects, renewed.effects);
      if renewed.flow.Done? {
        var token := renewed.flow.value;
        var second := Battery.GetBatteryLevel(cfg.envToken, token, t.retry, t.retryLogin);
        Battery.OnePollPerCall(cfg.envToken, token, t.retry, t.retryLogin);
        CommandsAppend(first.effects + renewed.effects, second.effects);
        PollsAppend(first.effects + renewed.effects, second.effects);
      }
    }
  }

  lemma TokenCallsNeitherPollNorSwitch(env: Option<string>, login: Token.LoginResponse)
    ensures Commands(Token.GetToken(env, login).effects) == []
    ensures Polls(Token.GetToken(env, login).effects) == []
  {
  }

  /** Anything but a 401 is polled exactly once, with the current credential,
      which is kept. */
  lemma NoRetryWithoutUnauthorized(cfg: Config, a: string, t: Tick)
    requires t.poll.status != 401
    ensures Polls(PollWithRetry(cfg, a, t).effects) == [a]
    ensures PollWithRetry(cfg, a, t).authtoken == a
  {
  }

  /** A 401 leads to exactly one renewal of the credential (line 133) and
      exactly one retried poll, made with the renewed credential; the
      thresholds then see the retry's answer. */
  lemma UnauthorizedRenewsThenRetriesOnce(cfg: Config, a: string, t: Tick)
    requires t.poll.status == 401
    requires Token.GetToken(cfg.envToken, t.pollLogin).flow.Done?
    requires Token.GetToken(cfg.envToken, t.renewLogin).flow.Done?
    ensures var c := Token.GetToken(cfg.envToken, t.renewLogin).flow.value;
            var p := PollWithRetry(cfg, a, t);
            p.authtoken == c && Polls(p.effects) == [a, c] &&
            p.flow == Battery.GetBatteryLevel(cfg.envToken, c, t.retry, t.retryLogin).flow
  {
    var c := Token.GetToken(cfg.envToken, t.renewLogin).flow.value;
    var first := Battery.GetBatteryLevel(cfg.envToken, a, t.poll, t.pollLogin);
    var renewed := Token.GetToken(cfg.envToken, t.renewLogin);
    var second := Battery.GetBatteryLevel(cfg.envToken, c, t.retry, t.retryLogin);
    Battery.OnePollPerCall(cfg.envToken, a, t.poll, t.pollLogin);
    Battery.OnePollPerCall(cfg.envToken, c, t.retry, t.retryLogin);
    TokenCallsNeitherPollNorSwitch(cfg.envToken, t.renewLogin);
    PollsAppend(first.effects, renewed.effects);
    PollsAppend(first.effects + renewed.effects, second.effects);
  }

  /** With a `TOKEN` setting, a 401 costs exactly one extra poll and no
      network call besides. */
  lemma UnauthorizedWithTokenSetting(raw: string, a: string, t: Tick)
    requires t.poll.status == 401
    ensures PollWithRetry(Config(Some(raw)), a, t).effects == [Poll(a), Poll(Token.Bearer(raw))]
  {
  }

  /** Without it, a 401 costs the login of the discarded `get_token` at line 78,
      the login of the renewal, and the retried poll, in that order. */
  lemma UnauthorizedWithLogin(a: string, first: string, renewed: string, t: Tick)
    requires t.poll.status == 401
    requires t.pollLogin == Token.LoginResponse(200, Some(first))
    requires t.renewLogin == Token.LoginResponse(200, Some(renewed))
    ensures var p := PollWithRetry(Config(None), a, t);
            |p.effects| >= 4 &&
            p.effects[..4] == [Poll(a), Login, Login, Poll(Token.Bearer(renewed))] &&
            p.authtoken == Token.Bearer(renewed) &&
            (t.retry.status != 401 ==>
               p.effects == [Poll(a), Login, Login, Poll(Token.Bearer(renewed))])
  {
  }

  /** A failed renewal notifies the operator once and exits without
      retrying the poll. */
  lemma FailedRenewalExits(a: string, t: Tick)
    requires t.poll.status == 401
    requires t.pollLogin.status == 200 && t.pollLogin.token.Some?
    requires t.renewLogin.status != 200
    ensures var p := PollWithRetry(Config(None), a, t);
            p.flow == Flow.Exited && Polls(p.effects) == [a] &&
            Notices(p.effects) == [Token.LoginFailedMessage]
  {
    var p := PollWithRetry(Config(None), a, t);
    assert p.effects == [Poll(a), Login, Login, Notify(Token.LoginFailedMessage)];
    LoginTrace(a, Token.LoginFailedMessage);
  }

  /** Helper of FailedRenewalExits: the polls and e-mails of that call sequence. */
  lemma LoginTrace(a: string, m: string)
    ensures Polls([Poll(a), Login, Login, Notify(m)]) == [a]
    ensures Notices([Poll(a), Login, Login, Notify(m)]) == [m]
  {
    var e := [Poll(a), Login, Login, Notify(m)];
    assert e[1..] == [Login, Login, Notify(m)];
    assert e[1..][1..] == [Login, Notify(m)];
    assert e[1..][1..][1..] == [Notify(m)];
    assert e[1..][1..][1..][1..] == [];
    assert Polls(e[1..][1..][1..]) == [];
    assert Polls(e[1..][1..]) == [];
    assert Polls(e[1..]) == [];
    assert Notices(e[1..][1..][1..]) == [m];
    assert Notices(e[1..][1..]) == [m];
    assert Notices(e[1..]) == [m];
  }

  // ---------------------------------------------------------------------
  // The thresholds (lines 135-142)
  // ---------------------------------------------------------------------

  /** One iteration follows the hysteresis rule: the relay is switched
      exactly when the rule says so, and the believed state becomes the
      rule's target even if the plug cannot be reached (lines 137, 141). */
  lemma {:induction false} StepFollowsHysteresis(cfg: Config, s: State, t: Tick, level: int)
    requires PollWithRetry(cfg, s.authtoken, t).flow == Done(Battery.Percent(level))
    ensures var r := Step(cfg, s, t);
            r.state.authtoken == PollWithRetry(cfg, s.authtoken, t).authtoken &&
            match Hysteresis(level, s.acState)
            case None =>
              r.state.acState == s.acState && Commands(r.effects) == [] && r.status == Running
            case Some(c) =>
              r.state.acState == Plug.Target(c) &&
              (t.plugReachable ==> Commands(r.effects) == [c] && r.status == Running) &&
              (!t.plugReachable ==> Commands(r.effects) == [] && r.status == Crash(RelayUnreachable))
  {
    var p := PollWithRetry(cfg, s.authtoken, t);
    PollingIssuesNoCommands(cfg, s.authtoken, t);
    var s1 := s.(authtoken := p.authtoken);
    var r := Step(cfg, s, t);
    assert r == Thresholds(s1, level, t.plugReachable, p.effects);
    match Hysteresis(level, s.acState)
    case None =>
      assert r == StepResult(s1, p.effects, Running);
    case Some(c) =>
      var word := Plug.Target(c);
      Plug.SetPlugCommands(word, t.plugReachable);
      CommandsAppend(p.effects, Plug.SetPlug(word, t.plugReachable).effects);
      assert r == Switch(s1, word, t.plugReachable, p.effects);
  }

  /** In the dead zone the relay is left alone. */
  lemma DeadZone(cfg: Config, s: State, t: Tick, level: int)
    requires PollWithRetry(cfg, s.authtoken, t).flow == Done(Battery.Percent(level))
    requires Low <= level <= High
    ensures Step(cfg, s, t).state.acState == s.acState
    ensures Commands(Step(cfg, s, t).effects) == []
    ensures Step(cfg, s, t).status == Running
  {
    StepFollowsHysteresis(cfg, s, t, level);
  }

  /** Below `Low` with the relay believed off: exactly one "on" command. */
  lemma SwitchOnBelowLow(cfg: Config, s: State, t: Tick, level: int)
    requires PollWithRetry(cfg, s.authtoken, t).flow == Done(Battery.Percent(level))
    requires level < Low && s.acState == "off" && t.plugReachable
    ensures Step(cfg, s, t).state.acState == "on"
    ensures Commands(Step(cfg, s, t).effects) == [TurnOn]
    ensures Step(cfg, s, t).status == Running
  {
    StepFollowsHysteresis(cfg, s, t, level);
  }

  /** Above `High` with the relay believed on: exactly one "off" command. */
  lemma SwitchOffAboveHigh(cfg: Config, s: State, t: Tick, level: int)
    requires PollWithRetry(cfg, s.authtoken, t).flow == Done(Battery.Percent(level))
    requires level > High && s.acState == "on" && t.plugReachable
    ensures Step(cfg, s, t).state.acState == "off"
    ensures Commands(Step(cfg, s, t).effects) == [TurnOff]
    ensures Step(cfg, s, t).status == Running
  {
    StepFollowsHysteresis(cfg, s, t, level);
  }

  /** When the believed state already matches the side of the threshold,
      nothing is sent. */
  lemma AlreadyInTargetState(cfg: Config, s: State, t: Tick, level: int)
    requires PollWithRetry(cfg, s.authtoken, t).flow == Done(Battery.Percent(level))
    requires (level < Low && s.acState == "on") || (level > High && s.acState == "off")
    ensures Step(cfg, s, t).state.acState == s.acState
    ensures Commands(Step(cfg, s, t).effects) == []
    ensures Step(cfg, s, t).status == Running
  {
    StepFollowsHysteresis(cfg, s, t, level);
  }

  /** `ac_state` is assigned before `set_plug` runs: a plug that cannot be
      reached still leaves the new word believed, and the process ends. */
  lemma BelievedStateChangesBeforeRelay(cfg: Config, s: State, t: Tick, level: int)
    requires PollWithRetry(cfg, s.authtoken, t).flow == Done(Battery.Percent(level))
    requires level < Low && s.acState == "off" && !t.plugReachable
    ensures Step(cfg, s, t).state.acState == "on"
    ensures Commands(Step(cfg, s, t).effects) == []
    ensures Step(cfg, s, t).status == Crash(RelayUnreachable)
  {
    StepFollowsHysteresis(cfg, s, t, level);
  }

  /** What one iteration can do to the relay, whatever the answers: nothing,
      or one command that moves away from the believed state and becomes it. */
  lemma {:induction false} StepCommandShape(cfg: Config, s: State, t: Tick)
    ensures var r := Step(cfg, s, t);
            var cs := Commands(r.effects);
            (cs == [] && (r.status == Running ==> r.state.acState == s.acState)) ||
            (|cs| == 1 && Plug.Target(cs[0]) != s.acState && r.state.acState == Plug.Target(cs[0]))
  {
    var p := PollWithRetry(cfg, s.authtoken, t);
    PollingIssuesNoCommands(cfg, s.authtoken, t);
    match p.flow
    case Done(Percent(level)) =>
      StepFollowsHysteresis(cfg, s, t, level);
    case Done(Unauthorized) =>
    case Exited =>
    case Crashed(_) =>
  }

  /** At most one relay command per iteration. */
  lemma AtMostOneCommand(cfg: Config, s: State, t: Tick)
    ensures |Commands(Step(cfg, s, t).effects)| <= 1
  {
    StepCommandShape(cfg, s, t);
  }

  /** A second "unauthorized" after renewal ends the process at the
      comparison of line 135, before any relay command. */
  lemma SecondUnauthorizedCrashes(cfg: Config, s: State, t: Tick)
    requires t.poll.status == 401 && t.retry.status == 401
    requires Token.GetToken(cfg.envToken, t.pollLogin).flow.Done?
    requires Token.GetToken(cfg.envToken, t.renewLogin).flow.Done?
    requires Token.GetToken(cfg.envToken, t.retryLogin).flow.Done?
    ensures Step(cfg, s, t).status == Crash(CompareUnauthorized)
    ensures Step(cfg, s, t).state.acState == s.acState
    ensures Commands(Step(cfg, s, t).effects) == []
  {
    PollingIssuesNoCommands(cfg, s.authtoken, t);
  }

  /** A status other than 200 and 401 ends the process without notifying
      anyone and without touching the relay. */
  lemma UnexpectedStatusCrashesSilently(cfg: Config, s: State, t: Tick)
    requires t.poll.status != 200 && t.poll.status != 401
    ensures Step(cfg, s, t) == StepResult(s, [Poll(s.authtoken)], Crash(StatusConcat))
    ensures Notices(Step(cfg, s, t).effects) == []
  {
  }

  /** A 200 without a state of charge ends the process. */
  lemma MissingSocCrashes(cfg: Config, s: State, t: Tick)
    requires t.poll.status == 200 && t.poll.soc.None?
    ensures Step(cfg, s, t) == StepResult(s, [Poll(s.authtoken)], Crash(SocMissing))
  {
  }

  // ---------------------------------------------------------------------
  // The whole loop
  // ---------------------------------------------------------------------

  /** Successive relay commands alternate, starting away from the believed
      state: the hysteresis never sends the same command twice in a row. */
  ghost predicate Alternating(from: string, cs: seq<Command>)
    decreases |cs|
  {
    cs == [] || (Plug.Target(cs[0]) != from && Alternating(Plug.Target(cs[0]), cs[1..]))
  }

  lemma {:induction false} RunAlternates(cfg: Config, s: State, ticks: seq<Tick>)
    ensures Alternating(s.acState, Commands(RunFrom(cfg, s, ticks).effects))
    decreases |ticks|
  {
    if ticks != [] {
      var r := Step(cfg, s, ticks[0]);
      StepCommandShape(cfg, s, ticks[0]);
      var cs := Commands(r.effects);
      if r.status == Running {
        var rest := RunFrom(cfg, r.state, ticks[1..]);
        RunAlternates(cfg, r.state, ticks[1..]);
        CommandsAppend(r.effects, rest.effects);
        assert RunFrom(cfg, s, ticks).effects == r.effects + rest.effects;
        if cs != [] {
          var all := cs + Commands(rest.effects);
          assert all[0] == cs[0];
          assert all[1..] == Commands(rest.effects);
          assert Alternating(s.acState, all);
        } else {
          assert cs + Commands(rest.effects) == Commands(rest.effects);
        }
      }
    }
  }

  lemma {:induction false} RunKeepsValid(cfg: Config, s: State, ticks: seq<Tick>)
    requires ValidState(s)
    ensures ValidState(RunFrom(cfg, s, ticks).state)
    decreases |ticks|
  {
    if ticks != [] {
      StepKeepsValid(cfg, s, ticks[0]);
      var r := Step(cfg, s, ticks[0]);
      if r.status == Running {
        RunKeepsValid(cfg, r.state, ticks[1..]);
      }
    }
  }

  /** With a `TOKEN` setting, the only configuration in which the program as
      written gets past start-up, an iteration never e-mails the operator:
      renewals make no call, an unexpected status raises before its e-mail,
      and `set_plug` is only given "on" or "off". */
  lemma StepNeverNotifiesWithTokenSetting(raw: string, s: State, t: Tick)
    ensures Notices(Step(Config(Some(raw)), s, t).effects) == []
  {
    var cfg := Config(Some(raw));
    var p := PollWithRetry(cfg, s.authtoken, t);
    var first := Battery.GetBatteryLevel(cfg.envToken, s.authtoken, t.poll, t.pollLogin);
    assert Notices(first.effects) == [];
    if first.flow == Done(Battery.Unauthorized) {
      var token := Token.Bearer(raw);
      var second := Battery.GetBatteryLevel(cfg.envToken, token, t.retry, t.retryLogin);
      assert p.effects == first.effects + [] + second.effects;
      NoticesAppend(first.effects, []);
      NoticesAppend(first.effects + [], second.effects);
    }
    assert Notices(p.effects) == [];
    if p.flow.Done? && p.flow.value.Percent? {
      var on := Plug.SetPlug("on", t.plugReachable);
      var off := Plug.SetPlug("off", t.plugReachable);
      NoticesAppend(p.effects, on.effects);
      NoticesAppend(p.effects, off.effects);
      NoticesAppend(p.effects + on.effects, off.effects);
    }
  }

  /** Over any run with a `TOKEN` setting, no e-mail is ever sent. */
  lemma {:induction false} RunNeverNotifiesWithTokenSetting(raw: string, s: State, ticks: seq<Tick>)
    ensures Notices(RunFrom(Config(Some(raw)), s, ticks).effects) == []
    decreases |ticks|
  {
    if ticks != [] {
      var cfg := Config(Some(raw));
      var r := Step(cfg, s, ticks[0]);
      StepNeverNotifiesWithTokenSetting(raw, s, ticks[0]);
      if r.status == Running {
        var rest := RunFrom(cfg, r.state, ticks[1..]);
        RunNeverNotifiesWithTokenSetting(raw, r.state, ticks[1..]);
        NoticesAppend(r.effects, rest.effects);
      }
    }
  }

  /** An iteration whose poll answers 200 with the given level. */
  function Reading(level: int): Tick {
    Tick(Battery.Response(200, Some(level)), Token.LoginResponse(200, None),
         Token.LoginResponse(200, None), Battery.Response(200, None),
         Token.LoginResponse(200, None), true)
  }

  /** One iteration whose poll answers 200 polls once and then follows the
      hysteresis rule. */
  lemma ReadingStep(cfg: Config, s: State, level: int)
    ensures Step(cfg, s, Reading(level)) ==
            match Hysteresis(level, s.acState)
            case None => StepResult(s, [Poll(s.authtoken)], Running)
            case Some(c) => StepResult(s.(acState := Plug.Target(c)), [Poll(s.authtoken), Relay(c)], Running)
  {
  }

  /** The last three readings of the scenario, from "on": "off" at 55 only. */
  lemma ScenarioTail(cfg: Config, token: string)
    ensures RunFrom(cfg, State(token, "on"), [Reading(10), Reading(55), Reading(45)]) ==
            RunResult(State(token, "off"), [Poll(token), Poll(token), Relay(TurnOff), Poll(token)], Running, 3)
  {
    var off, on := State(token, "off"), State(token, "on");
    var poll := Poll(token);
    ReadingStep(cfg, on, 10);
    ReadingStep(cfg, on, 55);
    ReadingStep(cfg, off, 45);
    var t5 := [Reading(45)];
    var t4 := [Reading(55)] + t5;
    var t3 := [Reading(10)] + t4;
    assert t5[1..] == [] && t4[1..] == t5 && t3[1..] == t4;
    assert RunFrom(cfg, off, t5) == RunResult(off, [poll], Running, 1);
    assert RunFrom(cfg, on, t4) == RunResult(off, [poll, Relay(TurnOff)] + [poll], Running, 2);
    assert RunFrom(cfg, on, t3) == RunResult(off, [poll] + ([poll, Relay(TurnOff)] + [poll]), Running, 3);
    assert t3 == [Reading(10), Reading(55), Reading(45)];
  }

  /** Readings 30, 15, 10, 55, 45 starting from "off": one "on" (at 15), one
      "off" (at 55), nothing at 30, 10 or 45. */
  lemma ScenarioOnThenOff(cfg: Config, token: string)
    ensures var r := RunFrom(cfg, State(token, "off"),
                             [Reading(30), Reading(15), Reading(10), Reading(55), Reading(45)]);
            r.effects == [Poll(token), Poll(token), Relay(TurnOn), Poll(token),
                          Poll(token), Relay(TurnOff), Poll(token)] &&
            Commands(r.effects) == [TurnOn, TurnOff] &&
            r.state == State(token, "off") && r.status == Running && r.consumed == 5
  {
    var off, on := State(token, "off"), State(token, "on");
    var poll := Poll(token);
    var tail := [poll, poll, Relay(TurnOff), poll];
    ReadingStep(cfg, off, 30);
    ReadingStep(cfg, off, 15);
    ScenarioTail(cfg, token);
    var t3 := [Reading(10), Reading(55), Reading(45)];
    var t2 := [Reading(15)] + t3;
    var t1 := [Reading(30)] + t2;
    assert t2[1..] == t3 && t1[1..] == t2;
    assert RunFrom(cfg, off, t2) == RunResult(off, [poll, Relay(TurnOn)] + tail, Running, 4);
    assert RunFrom(cfg, off, t1) == RunResult(off, [poll] + ([poll, Relay(TurnOn)] + tail), Running, 5);
    assert t1 == [Reading(30), Reading(15), Reading(10), Reading(55), Reading(45)];
    ScenarioCommands(token);
  }

  /** Helper of ScenarioOnThenOff: the relay commands of its call sequence. */
  lemma ScenarioCommands(token: string)
    ensures Commands([Poll(token), Poll(token), Relay(TurnOn), Poll(token),
                      Poll(token), Relay(TurnOff), Poll(token)]) == [TurnOn, TurnOff]
  {
    var e := [Poll(token), Poll(token), Relay(TurnOn), Poll(token),
              Poll(token), Relay(TurnOff), Poll(token)];
    assert e[1..] == [Poll(token), Relay(TurnOn), Poll(token), Poll(token), Relay(TurnOff), Poll(token)];
    assert e[2..] == [Relay(TurnOn), Poll(token), Poll(token), Relay(TurnOff), Poll(token)];
    assert e[3..] == [Poll(token), Poll(token), Relay(TurnOff), Poll(token)];
    assert e[4..] == [Poll(token), Relay(TurnOff), Poll(token)];
    assert e[5..] == [Relay(TurnOff), Poll(token)];
    assert e[6..] == [Poll(token)];
    assert e[7..] == [];
    assert Commands(e[6..]) == [];
    assert Commands(e[5..]) == [TurnOff];
    assert Commands(e[4..]) == [TurnOff];
    assert Commands(e[3..]) == [TurnOff];
    assert Commands(e[2..]) == [TurnOn, TurnOff];
    assert Commands(e[1..]) == [TurnOn, TurnOff];
  }

  // ---------------------------------------------------------------------
  // Start-up (lines 126-128)
  // ---------------------------------------------------------------------

  /** A login refused at start-up sends exactly one e-mail and exits before
      the battery is ever polled. */
  lemma StartupLoginFailure(login: Token.LoginResponse, plug: Option<bool>)
    requires login.status != 200
    ensures var r := Boot(Config(None), login, plug);
            r.flow == Flow.Exited && Polls(r.effects) == [] &&
            Notices(r.effects) == [Token.LoginFailedMessage]
  {
  }

  /** With a `TOKEN` setting start-up makes no call and believes what the
      plug reports. */
  lemma StartupWithTokenSetting(raw: string, login: Token.LoginResponse, isOn: bool)
    ensures Boot(Config(Some(raw)), login, Some(isOn)) ==
            Out([], Done(State(Token.Bearer(raw), if isOn then "on" else "off")))
  {
  }
}

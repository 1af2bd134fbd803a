/** The control loop of monitor.py (lines 126-143): start-up, then forever
    poll the battery, recover once from an unauthorized answer and drive the
    relay with a hysteresis rule. */
module Monitor {
  import opened Outcome
  import Token
  import Battery
  import Plug

  /** Below this level the relay is switched on. */
  const Low := 20
  /** Above this level the relay is switched off. */
  const High := 50

  /** The one setting that changes the loop's behaviour: `TOKEN`, if set. */
  datatype Config = Config(envToken: Option<string>)

  /** The module-level globals the loop updates: `authtoken` and `ac_state`. */
  datatype State = State(authtoken: string, acState: string)

  ghost predicate ValidState(s: State) {
    Token.IsBearer(s.authtoken) && Plug.IsWord(s.acState)
  }

  /** What the outside world answers during one iteration, call by call: the
      first poll, the login made by its discarded `get_token` on a 401, the
      login of the renewal at line 133, the retried poll, the login of its
      discarded `get_token`, and whether the plug can be reached. */
  datatype Tick = Tick(poll: Battery.Response, pollLogin: Token.LoginResponse,
                       renewLogin: Token.LoginResponse, retry: Battery.Response,
                       retryLogin: Token.LoginResponse, plugReachable: bool)

  /** Whether the process is still looping, and if not, how it ended. */
  datatype Status = Running | Exit | Crash(fault: Fault)

  function Halt<T>(f: Flow<T>): (s: Status)
    requires !f.Done?
    ensures s != Running
    ensures s.Crash? <==> f.Crashed?
    ensures s.Crash? ==> s.fault == f.fault
  {
    match f
    case Exited => Exit
    case Crashed(x) => Crash(x)
  }

  datatype StepResult = StepResult(state: State, effects: seq<Effect>, status: Status)

  /** The result of lines 131-134: the credential then in use, the calls
      made, and `current_level`. */
  datatype Polled = Polled(authtoken: string, effects: seq<Effect>, flow: Flow<Battery.Level>)

  /** Lines 131-134: poll; on "unauthorized", renew the credential and poll
      once more, whatever that second poll answers. */
  function PollWithRetry(cfg: Config, authtoken: string, t: Tick): Polled {
    var first := Battery.GetBatteryLevel(cfg.envToken, authtoken, t.poll, t.pollLogin);
    if first.flow != Done(Battery.Unauthorized) then Polled(authtoken, first.effects, first.flow)
    else
      var renewed := Token.GetToken(cfg.envToken, t.renewLogin);
      match renewed.flow
      case Exited => Polled(authtoken, first.effects + renewed.effects, Flow.Exited)
      case Crashed(f) => Polled(authtoken, first.effects + renewed.effects, Flow.Crashed(f))
      case Done(token) =>
        var second := Battery.GetBatteryLevel(cfg.envToken, token, t.retry, t.retryLogin);
        Polled(token, first.effects + renewed.effects + second.effects, second.flow)
  }

  /** Lines 137-138 (and 141-142): `ac_state` is assigned before `set_plug`
      runs, so it keeps the new word even when the plug cannot be reached. */
  function Switch(s: State, word: string, reachable: bool, pre: seq<Effect>): StepResult {
    var sp := Plug.SetPlug(word, reachable);
    StepResult(s.(acState := word), pre + sp.effects,
               if sp.flow.Done? then Running else Halt(sp.flow))
  }

  /** Lines 135-142: the two threshold tests, in sequence. */
  function Thresholds(s: State, level: int, reachable: bool, pre: seq<Effect>): StepResult {
    var r := if level < Low && s.acState == "off" then Switch(s, "on", reachable, pre)
             else StepResult(s, pre, Running);
    if r.status != Running then r
    else if level > High && r.state.acState == "on" then Switch(r.state, "off", reachable, r.effects)
    else r
  }

  /** One iteration of the `while True` loop (lines 131-143). A second
      "unauthorized" reaches the comparison with 20 at line 135, which raises. */
  function Step(cfg: Config, s: State, t: Tick): StepResult {
    var p := PollWithRetry(cfg, s.authtoken, t);
    var s1 := s.(authtoken := p.authtoken);
    match p.flow
    case Done(Percent(level)) => Thresholds(s1, level, t.plugReachable, p.effects)
    case Done(Unauthorized) => StepResult(s1, p.effects, Crash(CompareUnauthorized))
    case Exited => StepResult(s1, p.effects, Exit)
    case Crashed(f) => StepResult(s1, p.effects, Crash(f))
  }

  /** The hysteresis rule stated on its own: switch on below `Low` when off,
      switch off above `High` when on, otherwise leave the relay alone. */
  function Hysteresis(level: int, acState: string): (r: Option<Command>)
    ensures Low <= level <= High ==> r.None?
    ensures r.Some? ==> Plug.Target(r.value) != acState
    ensures r.Some? && level < Low ==> r.value == TurnOn
    ensures r.Some? && level > High ==> r.value == TurnOff
    ensures level < Low && acState == "off" ==> r == Some(TurnOn)
    ensures level > High && acState == "on" ==> r == Some(TurnOff)
  {
    if level < Low then (if acState == "off" then Some(TurnOn) else None)
    else if level > High then (if acState == "on" then Some(TurnOff) else None)
    else None
  }

  datatype RunResult = RunResult(state: State, effects: seq<Effect>, status: Status, consumed: nat)

  /** The loop over a finite sequence of iterations; it stops at the first
      iteration that ends the process. */
  function RunFrom(cfg: Config, s: State, ticks: seq<Tick>): (r: RunResult)
    ensures r.consumed <= |ticks|
    ensures r.status == Running ==> r.consumed == |ticks|
    decreases |ticks|
  {
    if ticks == [] then RunResult(s, [], Running, 0)
    else
      var r := Step(cfg, s, ticks[0]);
      if r.status != Running then RunResult(r.state, r.effects, r.status, 1)
      else
        var rest := RunFrom(cfg, r.state, ticks[1..]);
        RunResult(rest.state, r.effects + rest.effects, rest.status, 1 + rest.consumed)
  }

  /** Start-up (lines 126-128): obtain a credential, then read the plug. */
  function Boot(cfg: Config, login: Token.LoginResponse, plug: Option<bool>): (r: Out<State>)
    ensures r.flow.Done? ==> ValidState(r.flow.value)
    ensures r.effects == Token.GetToken(cfg.envToken, login).effects
    ensures r.flow.Done? <==> Token.GetToken(cfg.envToken, login).flow.Done? && plug.Some?
    ensures r.flow.Done? ==> r.flow.value.acState == Plug.Word(plug.value) &&
                             r.flow.value.authtoken == Token.GetToken(cfg.envToken, login).flow.value
    ensures Token.GetToken(cfg.envToken, login).flow.Exited? ==> r.flow == Exited
    ensures Token.GetToken(cfg.envToken, login).flow.Crashed? ==>
              r.flow == Crashed(Token.GetToken(cfg.envToken, login).flow.fault)
    ensures Token.GetToken(cfg.envToken, login).flow.Done? && plug.None? ==>
              r.flow == Crashed(RelayUnreachable)
  {
    var tok := Token.GetToken(cfg.envToken, login);
    match tok.flow
    case Exited => Out(tok.effects, Flow.Exited)
    case Crashed(f) => Out(tok.effects, Flow.Crashed(f))
    case Done(c) =>
      var p := Plug.GetPlug(plug);
      Out(tok.effects + p.effects,
          match p.flow
          case Done(w) => Done(State(c, w))
          case Exited => Flow.Exited
          case Crashed(f) => Flow.Crashed(f))
  }

  /** The running monitor: the two globals, the calls made so far, and whether
      the process still runs. */
  class ControlLoop {
    const cfg: Config
    var authtoken: string
    var acState: string
    var trace: seq<Effect>
    var status: Status

    ghost predicate Valid()
      reads this
    {
      ValidState(State(authtoken, acState))
    }

    function Current(): State
      reads this
    {
      State(authtoken, acState)
    }

    constructor (cfg: Config, start: State)
      requires ValidState(start)
      ensures Valid() && this.cfg == cfg && Current() == start
      ensures trace == [] && status == Running
    {
      this.cfg := cfg;
      authtoken := start.authtoken;
      acState := start.acState;
      trace := [];
      status := Running;
    }

    /** Lines 131-134: poll, and on "unauthorized" renew the credential and
        poll once more. */
    method PollWithRenewal(t: Tick) returns (level: Flow<Battery.Level>)
      modifies this`authtoken, this`trace
      ensures var p := PollWithRetry(cfg, old(authtoken), t);
              authtoken == p.authtoken && trace == old(trace) + p.effects && level == p.flow
    {
      var first := Battery.GetBatteryLevel(cfg.envToken, authtoken, t.poll, t.pollLogin);
      trace := trace + first.effects;
      level := first.flow;
      if level == Done(Battery.Unauthorized) {
        var renewed := Token.GetToken(cfg.envToken, t.renewLogin);
        trace := trace + renewed.effects;
        match renewed.flow
        case Exited =>
          level := Flow.Exited;
        case Crashed(f) =>
          level := Flow.Crashed(f);
        case Done(token) =>
          authtoken := token;
          var second := Battery.GetBatteryLevel(cfg.envToken, authtoken, t.retry, t.retryLogin);
          trace := trace + second.effects;
          level := second.flow;
      }
    }

    /** The loop body, statement by statement. */
    method Iterate(t: Tick)
      requires Valid() && status == Running
      modifies this
      ensures Valid()
      ensures var r := Step(cfg, old(Current()), t);
              Current() == r.state && trace == old(trace) + r.effects && status == r.status
    {
      StepKeepsValid(cfg, Current(), t);
      var level := PollWithRenewal(t);
      if level == Done(Battery.Unauthorized) {
        status := Crash(CompareUnauthorized);
        return;
      }
      if !level.Done? {
        status := Halt(level);
        return;
      }
      var current := level.value.soc;
      if current < Low && acState == "off" {
        acState := "on";
        var turned := Plug.SetPlug("on", t.plugReachable);
        trace := trace + turned.effects;
        if !turned.flow.Done? {
          status := Halt(turned.flow);
          return;
        }
      }
      if current > High && acState == "on" {
        acState := "off";
        var turned := Plug.SetPlug("off", t.plugReachable);
        trace := trace + turned.effects;
        if !turned.flow.Done? {
          status := Halt(turned.flow);
          return;
        }
      }
    }

    /** The `while True` loop over a finite sequence of iterations; returns
        how many ran. */
    method Run(ticks: seq<Tick>) returns (consumed: nat)
      requires Valid() && status == Running
      modifies this
      ensures Valid()
      ensures var r := RunFrom(cfg, old(Current()), ticks);
              Current() == r.state && trace == old(trace) + r.effects &&
              status == r.status && consumed == r.consumed
    {
      ghost var s0 := Current();
      ghost var done: seq<Effect> := [];
      consumed := 0;
      while consumed < |ticks| && status == Running
        invariant consumed <= |ticks| && Valid()
        invariant trace == old(trace) + done
        invariant status == Running ==>
                    var rest := RunFrom(cfg, Current(), ticks[consumed..]);
                    RunFrom(cfg, s0, ticks) ==
                      RunResult(rest.state, done + rest.effects, rest.status, consumed + rest.consumed)
        invariant status != Running ==>
                    RunFrom(cfg, s0, ticks) == RunResult(Current(), done, status, consumed)
        decreases |ticks| - consumed
      {
        ghost var cur := Current();
        var t := ticks[consumed];
        ghost var here := RunFrom(cfg, cur, ticks[consumed..]);
        ghost var r := Step(cfg, cur, t);
        RunFromAt(cfg, cur, ticks, consumed);
        Iterate(t);
        ConcatAssoc(old(trace), done, r.effects);
        if status == Running {
          Advance(RunFrom(cfg, s0, ticks), done, consumed, here, r.effects,
                  RunFrom(cfg, r.state, ticks[consumed + 1..]));
        }
        done := done + r.effects;
        consumed := consumed + 1;
      }
      if status == Running {
        assert ticks[consumed..] == [];
      }
    }
  }

  /** Unfolds the run of the iterations from position `i` by one step. */
  lemma RunFromAt(cfg: Config, s: State, ticks: seq<Tick>, i: nat)
    requires i < |ticks|
    ensures var r := Step(cfg, s, ticks[i]);
            var rest := RunFrom(cfg, r.state, ticks[i + 1..]);
            RunFrom(cfg, s, ticks[i..]) ==
              if r.status != Running then RunResult(r.state, r.effects, r.status, 1)
              else RunResult(rest.state, r.effects + rest.effects, rest.status, 1 + rest.consumed)
  {
  }

  /** Moves one iteration's effects from the remaining run to the finished prefix. */
  lemma Advance(whole: RunResult, done: seq<Effect>, k: nat, here: RunResult,
                e: seq<Effect>, rest: RunResult)
    requires whole == RunResult(here.state, done + here.effects, here.status, k + here.consumed)
    requires here == RunResult(rest.state, e + rest.effects, rest.status, 1 + rest.consumed)
    ensures whole == RunResult(rest.state, (done + e) + rest.effects, rest.status, (k + 1) + rest.consumed)
  {
  }

  lemma ConcatAssoc<T>(a: seq<T>, b: seq<T>, c: seq<T>)
    ensures a + (b + c) == (a + b) + c
  {
  }

  lemma StepKeepsValid(cfg: Config, s: State, t: Tick)
    requires ValidState(s)
    ensures ValidState(Step(cfg, s, t).state)
  {
  }
}

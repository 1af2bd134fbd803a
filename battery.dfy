/** `get_battery_level` (monitor.py lines 66-88): one authenticated GET of the
    device list, classified by HTTP status. */
module Battery {
  import opened Outcome
  import Token

  /** The device endpoint's answer: its HTTP status and, for the configured
      serial, `data.bound[SERIAL].soc` if present. */
  datatype Response = Response(status: int, soc: Option<int>)

  /** What `get_battery_level` returns: the state of charge, or the string
      "unauthorized". */
  datatype Level = Percent(soc: int) | Unauthorized

  /** The three ways a status is handled. */
  datatype StatusClass = Renew | Success | Unexpected(code: int)

  function Classify(status: int): (k: StatusClass)
    ensures k == Renew <==> status == 401
    ensures k == Success <==> status == 200
    ensures k.Unexpected? <==> status != 401 && status != 200
    ensures k.Unexpected? ==> k.code == status
  {
    if status == 401 then Renew
    else if status == 200 then Success
    else Unexpected(status)
  }

  /** One call of `get_battery_level` with the given credential. A 401 calls
      `get_token` and discards its result (line 78), so only that call's side
      effects remain; any other unexpected status raises while building the
      error message (line 86), before the operator is notified. */
  function GetBatteryLevel(env: Option<string>, credential: string, resp: Response,
                           login: Token.LoginResponse): (r: Out<Level>)
    ensures |r.effects| >= 1 && r.effects[0] == Poll(credential)
    ensures Classify(resp.status) == Renew ==>
              r.effects == [Poll(credential)] + Token.GetToken(env, login).effects &&
              (r.flow.Done? <==> Token.GetToken(env, login).flow.Done?) &&
              (r.flow.Done? ==> r.flow.value == Unauthorized) &&
              (Token.GetToken(env, login).flow.Exited? ==> r.flow == Exited) &&
              (Token.GetToken(env, login).flow.Crashed? ==>
                 r.flow == Crashed(Token.GetToken(env, login).flow.fault))
    ensures Classify(resp.status) == Success ==>
              r.effects == [Poll(credential)] &&
              r.flow == (if resp.soc.Some? then Done(Percent(resp.soc.value)) else Crashed(SocMissing))
    ensures Classify(resp.status).Unexpected? ==>
              r == Out([Poll(credential)], Crashed(StatusConcat))
  {
    match Classify(resp.status)
    case Renew =>
      var discarded := Token.GetToken(env, login);
      Out([Poll(credential)] + discarded.effects,
          match discarded.flow
          case Done(_) => Done(Unauthorized)
          case Exited => Exited
          case Crashed(f) => Crashed(f))
    case Success =>
      Out([Poll(credential)],
          match resp.soc
          case Some(n) => Done(Percent(n))
          case None => Crashed(SocMissing))
    case Unexpected(_) => Out([Poll(credential)], Crashed(StatusConcat))
  }

  /** One poll makes exactly one GET, with the credential it was given, and
      "unauthorized" is returned only for a 401. */
  lemma {:induction false} OnePollPerCall(env: Option<string>, credential: string, resp: Response,
                                          login: Token.LoginResponse)
    ensures Polls(GetBatteryLevel(env, credential, resp, login).effects) == [credential]
    ensures Commands(GetBatteryLevel(env, credential, resp, login).effects) == []
    ensures GetBatteryLevel(env, credential, resp, login).flow == Done(Unauthorized) ==> resp.status == 401
  {
    var r := GetBatteryLevel(env, credential, resp, login);
    var t := Token.GetToken(env, login);
    assert r.effects == [Poll(credential)] + r.effects[1..];
    PollsAppend([Poll(credential)], r.effects[1..]);
    CommandsAppend([Poll(credential)], r.effects[1..]);
    assert Polls([Poll(credential)]) == [credential] + Polls([]);
    assert Commands([Poll(credential)]) == [] + Commands([]);
    if resp.status == 401 {
      assert r.effects[1..] == t.effects;
      if env.None? && login.status != 200 {
        assert t.effects == [Login, Notify(Token.LoginFailedMessage)];
        assert t.effects[1..] == [Notify(Token.LoginFailedMessage)];
        assert t.effects[1..][1..] == [];
      } else if env.None? {
        assert t.effects == [Login];
        assert t.effects[1..] == [];
      }
    }
  }

  /** No status other than 401 and 200 ever reaches the operator: the
      message concatenation at line 86 raises first. */
  lemma UnexpectedStatusNeverNotifies(env: Option<string>, credential: string, resp: Response,
                                      login: Token.LoginResponse)
    requires resp.status != 401 && resp.status != 200
    ensures Notices(GetBatteryLevel(env, credential, resp, login).effects) == []
    ensures GetBatteryLevel(env, credential, resp, login).flow == Crashed(StatusConcat)
  {
  }
}

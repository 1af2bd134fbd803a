/** Values shared by every part of the battery monitor: optional values, the
    calls the monitor makes to the outside world, and how a computation that
    may stop the process ends. */
module Outcome {

  datatype Option<T> = None | Some(value: T)

  /** A relay command, as issued by `turn_on` / `turn_off` on the smart plug. */
  datatype Command = TurnOn | TurnOff

  /** The exceptions the program does not catch; each ends the process. */
  datatype Fault =
    | JsonUndefined        // `json.dumps` in the login path, `json` never imported
    | TokenMissing         // login answered 200 without `data.token`
    | SocMissing           // device answered 200 without `data.bound[SERIAL].soc`
    | StatusConcat         // a string concatenated with an integer status code
    | CompareUnauthorized  // the string "unauthorized" compared with 20
    | RelayUnreachable     // the smart plug could not be updated or switched

  /** An observable call to the outside world, in the order it is made. */
  datatype Effect =
    | Login                      // POST to the login endpoint
    | Poll(credential: string)   // GET of the device list with this Authorization header
    | Relay(command: Command)    // a command that reached the smart plug
    | Notify(message: string)    // an operator e-mail

  /** How a computation that may end the process finishes. */
  datatype Flow<T> = Done(value: T) | Exited | Crashed(fault: Fault)

  /** The calls made, in order, and how the computation finished. */
  datatype Out<T> = Out(effects: seq<Effect>, flow: Flow<T>)

  /** The relay commands among a sequence of effects, in order. */
  function Commands(effects: seq<Effect>): (cs: seq<Command>)
    ensures |cs| <= |effects|
  {
    if effects == [] then []
    else (if effects[0].Relay? then [effects[0].command] else []) + Commands(effects[1..])
  }

  /** The credentials polled with, in order. */
  function Polls(effects: seq<Effect>): (ps: seq<string>)
    ensures |ps| <= |effects|
  {
    if effects == [] then []
    else (if effects[0].Poll? then [effects[0].credential] else []) + Polls(effects[1..])
  }

  /** The messages sent to the operator, in order. */
  function Notices(effects: seq<Effect>): (ms: seq<string>)
    ensures |ms| <= |effects|
  {
    if effects == [] then []
    else (if effects[0].Notify? then [effects[0].message] else []) + Notices(effects[1..])
  }

  lemma {:induction false} CommandsAppend(a: seq<Effect>, b: seq<Effect>)
    ensures Commands(a + b) == Commands(a) + Commands(b)
  {
    if a == [] {
      assert a + b == b;
    } else {
      var head := if a[0].Relay? then [a[0].command] else [];
      assert (a + b)[0] == a[0];
      assert (a + b)[1..] == a[1..] + b;
      CommandsAppend(a[1..], b);
      calc {
        Commands(a + b);
        head + Commands(a[1..] + b);
        head + (Commands(a[1..]) + Commands(b));
        (head + Commands(a[1..])) + Commands(b);
        Commands(a) + Commands(b);
      }
    }
  }

  lemma {:induction false} PollsAppend(a: seq<Effect>, b: seq<Effect>)
    ensures Polls(a + b) == Polls(a) + Polls(b)
  {
    if a == [] {
      assert a + b == b;
    } else {
      var head := if a[0].Poll? then [a[0].credential] else [];
      assert (a + b)[0] == a[0];
      assert (a + b)[1..] == a[1..] + b;
      PollsAppend(a[1..], b);
      calc {
        Polls(a + b);
        head + Polls(a[1..] + b);
        head + (Polls(a[1..]) + Polls(b));
        (head + Polls(a[1..])) + Polls(b);
        Polls(a) + Polls(b);
      }
    }
  }

  lemma {:induction false} NoticesAppend(a: seq<Effect>, b: seq<Effect>)
    ensures Notices(a + b) == Notices(a) + Notices(b)
  {
    if a == [] {
      assert a + b == b;
    } else {
      var head := if a[0].Notify? then [a[0].message] else [];
      assert (a + b)[0] == a[0];
      assert (a + b)[1..] == a[1..] + b;
      NoticesAppend(a[1..], b);
      calc {
        Notices(a + b);
        head + Notices(a[1..] + b);
        head + (Notices(a[1..]) + Notices(b));
        (head + Notices(a[1..])) + Notices(b);
        Notices(a) + Notices(b);
      }
    }
  }
}

/** `get_plug` and `set_plug` (monitor.py lines 105-124): the smart plug's
    state, as the words "on" and "off" the control loop stores. */
module Plug {
  import opened Outcome

  const KasaIssueMessage := "An issue with the Kasa Plug occurred!"

  predicate IsWord(w: string) {
    w == "on" || w == "off"
  }

  /** The word `get_plug` returns for the plug's `is_on` flag. */
  function Word(isOn: bool): (w: string)
    ensures IsWord(w)
    ensures w == "on" <==> isOn
  {
    if isOn then "on" else "off"
  }

  /** The believed state a relay command brings about. */
  function Target(c: Command): (w: string)
    ensures IsWord(w)
    ensures w == "on" <==> c == TurnOn
  {
    match c
    case TurnOn => "on"
    case TurnOff => "off"
  }

  /** `get_plug`: `None` stands for a plug that could not be updated. */
  function GetPlug(reading: Option<bool>): (r: Out<string>)
    ensures r.effects == []
    ensures reading.Some? <==> r.flow.Done?
    ensures reading.Some? ==> IsWord(r.flow.value) && (r.flow.value == "on" <==> reading.value)
    ensures reading.None? ==> r.flow == Crashed(RelayUnreachable)
  {
    match reading
    case Some(isOn) => Out([], Done(Word(isOn)))
    case None => Out([], Crashed(RelayUnreachable))
  }

  /** `set_plug`: the plug is updated first, whatever the word; "on" and "off"
      switch it, any other word only notifies the operator. */
  function SetPlug(word: string, reachable: bool): (r: Out<()>)
    ensures !reachable ==> r == Out([], Crashed(RelayUnreachable))
    ensures reachable ==> r.flow == Done(())
    ensures reachable && IsWord(word) ==>
              |r.effects| == 1 && r.effects[0].Relay? && Target(r.effects[0].command) == word
    ensures reachable && !IsWord(word) ==> r.effects == [Notify(KasaIssueMessage)]
  {
    if !reachable then Out([], Crashed(RelayUnreachable))
    else if word == "on" then Out([Relay(TurnOn)], Done(()))
    else if word == "off" then Out([Relay(TurnOff)], Done(()))
    else Out([Notify(KasaIssueMessage)], Done(()))
  }

  /** A successful `set_plug` with a word issues exactly the one command that
      brings the plug to that word, and notifies no one. */
  lemma SetPlugCommands(word: string, reachable: bool)
    requires IsWord(word)
    ensures reachable ==> |Commands(SetPlug(word, reachable).effects)| == 1 &&
                          Target(Commands(SetPlug(word, reachable).effects)[0]) == word
    ensures !reachable ==> Commands(SetPlug(word, reachable).effects) == []
    ensures Notices(SetPlug(word, reachable).effects) == []
  {
  }
}

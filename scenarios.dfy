/**
 * Callers of the engine: what a front end that offers only the current
 * state's choices can rely on, and plays through the shipped world.
 */
module Scenarios {
  import opened Wrappers
  import opened GameData
  import opened Engine

  /**
   * Takes the `i`-th choice offered by `GetChoices` on a guided play. When
   * that choice names a next state, the move never fails, the play stays a
   * trail, and the new state exists and is reachable from the start.
   */
  method TakeOffered<V>(e: GameEngine<V>, i: nat) returns (r: Result<Scene>)
    requires Closed(e.gameData) && Trail(e.gameData, e.history, e.currentState)
    requires e.GetChoices().Ok? && i < |e.GetChoices().value| && e.GetChoices().value[i].nextState.Some?
    modifies e
    ensures r.Ok? && Trail(e.gameData, e.history, e.currentState)
    ensures r.value == Scene(e.GetText().value, e.GetChoices().value)
    ensures e.history == old(e.history) + [Record(old(e.currentState), old(e.GetChoices().value[i]))]
    ensures e.currentState == old(e.GetChoices().value[i].nextState)
    ensures e.customData == old(e.customData)
    ensures e.currentState.Some? && e.currentState.value in e.gameData.states
    ensures Reachable(e.gameData, e.gameData.startingState, e.currentState.value)
  {
    var choices := e.GetChoices();
    var c := choices.value[i];
    assert c in ChoiceList(e.gameData.states[e.currentState.value]);
    r := e.MakeChoice(c);
    TrailStaysInWorld(e.gameData, e.history, e.currentState);
  }

  /** A fresh engine on a closed world is at the start of a guided play. */
  method Start<V>(w: World) returns (e: GameEngine<V>)
    requires Closed(w)
    ensures fresh(e) && e.gameData == w && e.Snap() == Initial(w)
    ensures Trail(w, e.history, e.currentState)
    ensures e.GetText().Ok? && e.GetChoices().Ok?
  {
    e := new GameEngine(w);
  }

  /** Look around, then open the door: the shipped world shows the outside text. */
  method OpenTheDoor() returns (text: string)
    ensures text == "You are outside. The adventure begins!"
  {
    var e := new GameEngine<int>(TheWorld());
    var choices := e.GetChoices();
    var r := e.MakeChoice(choices.value[0]);
    assert e.currentState == Some("looked");
    r := e.MakeChoice(r.value.choices[0]);
    text := r.value.text;
  }

  /**
   * "Check the time" names no next state: taking it records it in the
   * history, leaves the engine in an undefined state and fails.
   */
  method CheckTheTime() returns (r: Result<Scene>, entries: nat)
    ensures r == Err(UndefinedState(None))
    ensures entries == 1
  {
    var e := new GameEngine<int>(TheWorld());
    var choices := e.GetChoices();
    r := e.MakeChoice(choices.value[2]);
    entries := |e.history|;
  }

  /** Resetting twice leaves the same state as resetting once, which is the state after construction. */
  method ResetTwice<V>(e: GameEngine<V>) returns (once: Snapshot<V>, twice: Snapshot<V>)
    modifies e
    ensures once == twice == Initial(e.gameData)
    ensures e.Snap() == twice
  {
    e.Reset();
    once := e.Snap();
    e.Reset();
    twice := e.Snap();
  }

  /** A value stored under a key reads back, and another key keeps what it had. */
  method StoreAndRead(key: string, other: string, value: int) returns (got: Option<int>, kept: Option<int>)
    requires key != other
    ensures got == Some(value)
    ensures kept == Some(0)
  {
    var e := new GameEngine<int>(TheWorld());
    e.SetData(other, 0);
    e.SetData(key, value);
    got := e.GetData(key);
    kept := e.GetData(other);
  }
}

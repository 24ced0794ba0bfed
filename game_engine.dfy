/**
 * The choice-driven state machine: an engine object that holds the key of
 * the current state, an append-only history of the choices taken, and a
 * string-keyed scratch map, over a fixed world description.
 */
module Engine {
  import opened Wrappers
  import opened GameData

  /** One history entry: the state the engine was in and the choice taken there. */
  datatype Record = Record(state: Option<string>, choice: Choice)

  /** What a successful transition returns: the new state's text and choices. */
  datatype Scene = Scene(text: string, choices: seq<Choice>)

  /**
   * The failure of reading a property of `states[currentState]` when that
   * lookup is undefined (the key is undefined, or names no state).
   */
  datatype Fault = UndefinedState(key: Option<string>)

  datatype Result<T> = Ok(value: T) | Err(error: Fault)

  /** The whole mutable state of an engine, as a value. */
  datatype Snapshot<V> = Snapshot(currentState: Option<string>, history: seq<Record>, customData: map<string, V>)

  /** The state right after construction, and after every reset. */
  function Initial<V>(w: World): (s: Snapshot<V>)
  {
    Snapshot(Some(w.startingState), [], map[])
  }

  /** Choice `c` is offered by the existing state `from` and names a next state. */
  ghost predicate Legal(w: World, from: Option<string>, c: Choice)
  {
    from.Some? && from.value in w.states && c in ChoiceList(w.states[from.value]) && c.nextState.Some?
  }

  /**
   * `hist` records a play that began in the starting state and only took
   * legal choices, each from the state the previous one led to, ending in `cur`.
   */
  ghost predicate Trail(w: World, hist: seq<Record>, cur: Option<string>)
    decreases |hist|
  {
    if hist == [] then cur == Some(w.startingState)
    else
      var last := hist[|hist| - 1];
      && Legal(w, last.state, last.choice)
      && cur == last.choice.nextState
      && Trail(w, hist[..|hist| - 1], last.state)
  }

  /**
   * Along any trail in a closed world the current state exists and is
   * reachable from the starting state, and so is every state the history passed.
   */
  lemma {:induction false} TrailStaysInWorld(w: World, hist: seq<Record>, cur: Option<string>)
    requires Closed(w) && Trail(w, hist, cur)
    ensures cur.Some? && cur.value in w.states
    ensures Reachable(w, w.startingState, cur.value)
    ensures forall i :: 0 <= i < |hist| ==> hist[i].state.Some? && hist[i].state.value in w.states
  {
    if hist == [] {
      ReachableRefl(w, w.startingState);
    } else {
      var last := hist[|hist| - 1];
      var prefix := hist[..|hist| - 1];
      TrailStaysInWorld(w, prefix, last.state);
      assert last.choice in ChoiceList(w.states[last.state.value]);
      assert Edge(w, last.state.value, cur.value);
      EdgeReachable(w, last.state.value, cur.value);
      ReachableTrans(w, w.startingState, last.state.value, cur.value);
      forall i | 0 <= i < |hist|
        ensures hist[i].state.Some? && hist[i].state.value in w.states
      {
        if i < |prefix| {
          assert hist[i] == prefix[i];
        }
      }
    }
  }

  /** Extending a trail by one legal choice from its end gives a trail. */
  lemma TrailExtend(w: World, hist: seq<Record>, cur: Option<string>, c: Choice)
    requires Trail(w, hist, cur) && Legal(w, cur, c)
    ensures Trail(w, hist + [Record(cur, c)], c.nextState)
  {
  }

  /** The engine of gameEngine.js; `V` is the type of the values kept in `customData`. */
  class GameEngine<V> {
    const gameData: World
    var currentState: Option<string>
    var history: seq<Record>
    var customData: map<string, V>

    /** The engine's mutable state as one value. */
    function Snap(): (s: Snapshot<V>)
      reads this
    {
      Snapshot(currentState, history, customData)
    }

    constructor(gameData: World)
      ensures this.gameData == gameData
      ensures currentState == Some(gameData.startingState) && history == [] && customData == map[]
      ensures Snap() == Initial(gameData)
    {
      this.gameData := gameData;
      currentState := Some(gameData.startingState);
      history := [];
      customData := map[];
    }

    /** The state object named by `currentState`; None when the lookup is undefined. */
    function GetCurrentState(): (r: Option<State>)
      reads this
      ensures r.Some? <==> currentState.Some? && currentState.value in gameData.states
      ensures r.Some? ==> r.value == gameData.states[currentState.value]
    {
      if currentState.Some? && currentState.value in gameData.states then
        Some(gameData.states[currentState.value])
      else
        None
    }

    /** The text of the current state; fails exactly when the current state is undefined. */
    function GetText(): (r: Result<string>)
      reads this
      ensures r.Ok? <==> currentState.Some? && currentState.value in gameData.states
      ensures r.Ok? ==> r.value == gameData.states[currentState.value].text
      ensures r.Err? ==> r.error == UndefinedState(currentState)
    {
      match GetCurrentState()
      case Some(st) => Ok(st.text)
      case None => Err(UndefinedState(currentState))
    }

    /**
     * The choices of the current state, or the empty list when that state
     * has none; fails exactly when the current state is undefined.
     */
    function GetChoices(): (r: Result<seq<Choice>>)
      reads this
      ensures r.Ok? <==> currentState.Some? && currentState.value in gameData.states
      ensures r.Ok? && gameData.states[currentState.value].choices.Some? ==>
        r.value == gameData.states[currentState.value].choices.value
      ensures r.Ok? && gameData.states[currentState.value].choices.None? ==> r.value == []
      ensures r.Err? ==> r.error == UndefinedState(currentState)
    {
      match GetCurrentState()
      case Some(st) => Ok(ChoiceList(st))
      case None => Err(UndefinedState(currentState))
    }

    /**
     * Takes `choice`: records where it was taken, moves to its next state
     * (undefined when it names none), and returns the new state's text and
     * choices. The history and the move happen before the new state is read,
     * so they stay in place when that read fails.
     */
    method MakeChoice(choice: Choice) returns (r: Result<Scene>)
      modifies this
      ensures history == old(history) + [Record(old(currentState), choice)]
      ensures currentState == choice.nextState
      ensures customData == old(customData)
      ensures r.Ok? <==> currentState.Some? && currentState.value in gameData.states
      ensures r.Ok? ==> r.value == Scene(GetText().value, GetChoices().value)
      ensures r.Err? ==> r.error == UndefinedState(choice.nextState)
      ensures Closed(gameData) && Legal(gameData, old(currentState), choice) ==> r.Ok?
      ensures Trail(gameData, old(history), old(currentState)) && Legal(gameData, old(currentState), choice) ==>
        Trail(gameData, history, currentState)
    {
      if Trail(gameData, history, currentState) && Legal(gameData, currentState, choice) {
        TrailExtend(gameData, history, currentState, choice);
      }
      history := history + [Record(currentState, choice)];
      currentState := choice.nextState;
      var text := GetText();
      if text.Err? {
        return Err(text.error);
      }
      var choices := GetChoices();
      r := Ok(Scene(text.value, choices.value));
    }

    /** Back to the starting state with an empty history and empty custom data. */
    method Reset()
      modifies this
      ensures currentState == Some(gameData.startingState) && history == [] && customData == map[]
      ensures Snap() == Initial(gameData)
    {
      currentState := Some(gameData.startingState);
      history := [];
      customData := map[];
    }

    /** Stores `value` under `key`; every other key keeps its value. */
    method SetData(key: string, value: V)
      modifies this`customData
      ensures customData == old(customData)[key := value]
      ensures GetData(key) == Some(value)
      ensures forall k :: k != key ==> GetData(k) == old(GetData(k))
    {
      customData := customData[key := value];
    }

    /** The value stored under `key`; None (undefined) when nothing was stored. */
    function GetData(key: string): (r: Option<V>)
      reads this
      ensures r.Some? <==> key in customData
      ensures r.Some? ==> r.value == customData[key]
    {
      if key in customData then Some(customData[key]) else None
    }
  }
}

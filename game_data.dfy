/**
 * The world description the engine runs on: a finite graph of named states,
 * each with a text and a list of choices; a choice may name the state it
 * leads to and may name an action.
 */
module GameData {
  import opened Wrappers

  /** One option offered to the player. `nextState` and `action` are optional. */
  datatype Choice = Choice(text: string, nextState: Option<string>, action: Option<string>)

  /** A named state; its `choices` property may be absent. */
  datatype State = State(text: string, choices: Option<seq<Choice>>)

  /**
   * The whole world: the key of the starting state, the states by key, and
   * the names of the custom actions (their bodies read the clock and are
   * not part of this model).
   */
  datatype World = World(startingState: string, states: map<string, State>, actions: set<string>)

  /** The choices of a state, the empty list when the state has none. */
  function ChoiceList(st: State): (r: seq<Choice>)
  {
    match st.choices
    case Some(cs) => cs
    case None => []
  }

  /**
   * The concrete world shipped with the game: four states, starting at
   * `start`, and the single custom action `checkTime`.
   */
  function TheWorld(): (w: World)
    ensures w.startingState == "start"
    ensures w.states.Keys == {"start", "looked", "outside", "sleep"}
    ensures w.actions == {"checkTime"}
  {
    World(
      "start",
      map[
        "start" := State("You wake up. What do you do?", Some([
          Choice("Look around", Some("looked"), None),
          Choice("Go back to sleep", Some("sleep"), None),
          Choice("Check the time", None, Some("checkTime"))
        ])),
        "looked" := State("You see a door.", Some([
          Choice("Open the door", Some("outside"), None),
          Choice("Go back to sleep", Some("sleep"), None)
        ])),
        "outside" := State("You are outside. The adventure begins!", Some([
          Choice("Start over", Some("start"), None)
        ])),
        "sleep" := State("You sleep. Nothing happens.", Some([
          Choice("Wake up", Some("start"), None)
        ]))
      ],
      {"checkTime"})
  }

  /** Every choice that names a next state names a key of `states`. */
  ghost predicate TargetsResolve(w: World)
  {
    forall k, c :: k in w.states && c in ChoiceList(w.states[k]) && c.nextState.Some? ==>
      c.nextState.value in w.states
  }

  /** Every choice that names an action names a key of `actions`. */
  ghost predicate ActionsResolve(w: World)
  {
    forall k, c :: k in w.states && c in ChoiceList(w.states[k]) && c.action.Some? ==>
      c.action.value in w.actions
  }

  /** A world the engine can run without ever looking up a missing state. */
  ghost predicate Closed(w: World)
  {
    w.startingState in w.states && TargetsResolve(w)
  }

  /** Some choice of state `a` leads to state `b`. */
  ghost predicate Edge(w: World, a: string, b: string)
  {
    a in w.states && exists c :: c in ChoiceList(w.states[a]) && c.nextState == Some(b)
  }

  /** `p` is a non-empty sequence of state keys, each step taken by some choice. */
  ghost predicate IsWalk(w: World, p: seq<string>)
  {
    |p| > 0 && forall i :: 0 <= i < |p| - 1 ==> Edge(w, p[i], p[i + 1])
  }

  /** State `b` can be reached from state `a` by following choices. */
  ghost predicate Reachable(w: World, a: string, b: string)
  {
    exists p :: IsWalk(w, p) && p[0] == a && p[|p| - 1] == b
  }

  /** The `i`-th choice of state `a` gives an edge to its next state. */
  lemma EdgeByChoice(w: World, a: string, i: nat)
    requires a in w.states && i < |ChoiceList(w.states[a])|
    requires ChoiceList(w.states[a])[i].nextState.Some?
    ensures Edge(w, a, ChoiceList(w.states[a])[i].nextState.value)
  {
  }

  /** A single edge is a walk. */
  lemma EdgeReachable(w: World, a: string, b: string)
    requires Edge(w, a, b)
    ensures Reachable(w, a, b)
  {
    var p := [a, b];
    assert IsWalk(w, p);
  }

  /** Every state reaches itself by the walk of length zero. */
  lemma ReachableRefl(w: World, a: string)
    ensures Reachable(w, a, a)
  {
    assert IsWalk(w, [a]);
  }

  /** Reachability composes: walks can be joined end to end. */
  lemma ReachableTrans(w: World, a: string, b: string, c: string)
    requires Reachable(w, a, b) && Reachable(w, b, c)
    ensures Reachable(w, a, c)
  {
    var p :| IsWalk(w, p) && p[0] == a && p[|p| - 1] == b;
    var q :| IsWalk(w, q) && q[0] == b && q[|q| - 1] == c;
    var r := p + q[1..];
    forall i | 0 <= i < |r| - 1
      ensures Edge(w, r[i], r[i + 1])
    {
      if i < |p| - 1 {
        assert r[i] == p[i] && r[i + 1] == p[i + 1];
      } else {
        var j := i - (|p| - 1);
        assert r[i] == q[j] && r[i + 1] == q[j + 1];
      }
    }
    assert IsWalk(w, r);
  }

  /** The starting state of the shipped world exists, and every next state resolves. */
  lemma TheWorldClosed()
    ensures Closed(TheWorld())
  {
  }

  /** Every action a choice names is a key of the shipped `actions` table. */
  lemma TheWorldActionsResolve()
    ensures ActionsResolve(TheWorld())
  {
  }

  /** Every shipped state has a non-empty `choices` list, so the empty fallback never applies. */
  lemma TheWorldHasChoicesEverywhere()
    ensures forall k :: k in TheWorld().states ==>
      TheWorld().states[k].choices.Some? && |TheWorld().states[k].choices.value| > 0
  {
  }

  /**
   * The only shipped choice without a next state is "Check the time" in
   * `start`, which names the `checkTime` action instead, and that action exists.
   */
  lemma TheWorldTargetlessChoice()
    ensures forall k, c :: k in TheWorld().states && c in ChoiceList(TheWorld().states[k]) && c.nextState.None? ==>
      k == "start" && c == Choice("Check the time", None, Some("checkTime"))
    ensures Choice("Check the time", None, Some("checkTime")) in ChoiceList(TheWorld().states["start"])
    ensures "checkTime" in TheWorld().actions
  {
  }

  /** Every shipped state is reachable from the starting state. */
  lemma TheWorldReachableFromStart()
    ensures forall k :: k in TheWorld().states ==> Reachable(TheWorld(), TheWorld().startingState, k)
  {
    var w := TheWorld();
    EdgeByChoice(w, "start", 0);  // start -> looked
    EdgeByChoice(w, "start", 1);  // start -> sleep
    EdgeByChoice(w, "looked", 0); // looked -> outside
    EdgeReachable(w, "start", "looked");
    EdgeReachable(w, "start", "sleep");
    EdgeReachable(w, "looked", "outside");
    ReachableRefl(w, "start");
    ReachableTrans(w, "start", "looked", "outside");
  }

  /** The starting state is reachable again from every shipped state. */
  lemma TheWorldStartReachableFromAll()
    ensures forall k :: k in TheWorld().states ==> Reachable(TheWorld(), k, TheWorld().startingState)
  {
    var w := TheWorld();
    EdgeByChoice(w, "outside", 0); // outside -> start
    EdgeByChoice(w, "sleep", 0);   // sleep -> start
    EdgeByChoice(w, "looked", 1);  // looked -> sleep
    EdgeReachable(w, "outside", "start");
    EdgeReachable(w, "sleep", "start");
    EdgeReachable(w, "looked", "sleep");
    ReachableRefl(w, "start");
    ReachableTrans(w, "looked", "sleep", "start");
  }

  /** Hence every shipped state reaches every other one. */
  lemma TheWorldStronglyConnected()
    ensures forall a, b :: a in TheWorld().states && b in TheWorld().states ==> Reachable(TheWorld(), a, b)
  {
    TheWorldReachableFromStart();
    TheWorldStartReachableFromAll();
    forall a, b | a in TheWorld().states && b in TheWorld().states
      ensures Reachable(TheWorld(), a, b)
    {
      ReachableTrans(TheWorld(), a, TheWorld().startingState, b);
    }
  }
}

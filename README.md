# Text adventure engine, modelled in Dafny

This project models the text adventure engine of the repository: a minimal,
choice-driven state machine (`GameEngine` in `src/textAdventure/gameEngine.js`)
and the world description it runs on (`gameData` in
`src/textAdventure/gameData.js`).

- **World** (`game_data.dfy`, module `GameData`): a world is a starting state key,
  a map from state keys to states, and the set of action names. A state has a
  text and an optional list of choices. A choice has a text, an optional
  `nextState` and an optional `action`. `TheWorld()` is the shipped world, with four
  states (`start`, `looked`, `outside`, `sleep`) and one action (`checkTime`).
  Graph predicates (`Edge`, `IsWalk`, `Reachable`, `Closed`) describe its shape.
  Lemmas prove the following about the shipped world:
  - it is closed: the start state exists and every `nextState` resolves;
  - every state has choices;
  - the only choice without a next state is "Check the time";
  - every state reaches every other.
- **Engine** (`game_engine.dfy`, module `Engine`): the class `GameEngine<V>` has
  the same fields as the JavaScript class: `gameData`, `currentState`, `history`
  and `customData`. `V` is the type of the values stored in `customData`.
  - `GetCurrentState`, `GetText`, `GetChoices` and `GetData` are read-only functions.
  - `MakeChoice`, `Reset` and `SetData` are methods that change the fields in place.
  - `currentState` is an `Option<string>`, because in JavaScript it becomes
    `undefined` after a choice that names no next state.
  - Reading `.text` or `.choices` of an undefined state throws a `TypeError` in
    JavaScript. Here that is the result `Err(UndefinedState(key))`.
  - `MakeChoice` pushes the history record and moves before it reads the new
    state. So on failure the record and the move stay in place, as in the source.
  - `Legal` says that a choice is offered by the current, existing state and
    names a next state.
  - `Trail` says that a history is a play from the start that took only legal
    choices.
  - Combined result: in a closed world, a play that takes only offered choices
    with a next state never fails. Its current state always exists and is
    reachable from the start (`TrailStaysInWorld`, `MakeChoice`, `Scenarios.TakeOffered`).
- **Scenarios** (`scenarios.dfy`): callers of the engine.
  - A guided step.
  - A play through the shipped world to "outside".
  - The "Check the time" choice, which leaves the engine undefined.
  - A double reset.
  - A store/read round trip on `customData`.

The `TextAdventure.jsx` component calls `getRoomDescription`,
`getAvailableChoices`, `executeChoice` and `getGameState`. None of these exist
in `gameEngine.js`, whose engine is the named-state machine modelled here. The
room/inventory/lock engine those calls imply is not part of this model.

## Model

| member | source | states |
|---|---|---|
| GameData.TheWorld | src/textAdventure/gameData.js:12-61 | the shipped world literal: its starting state is `start`, its state keys are exactly `start`, `looked`, `outside` and `sleep`, and its only action is `checkTime`; the body gives each state's text and choices in source order |
| GameData.TheWorldClosed | src/textAdventure/gameData.js:13-51 | the starting state `start` is a key of `states`, and every choice that has a `nextState` names a key of `states` |
| GameData.TheWorldActionsResolve | src/textAdventure/gameData.js:55-56 | every action a choice names (`checkTime`) is a key of the `actions` table |
| GameData.TheWorldHasChoicesEverywhere | src/textAdventure/gameData.js:15-51 | every state has a non-empty `choices` list, so the empty-list fallback of `getChoices` never applies to this world |
| GameData.TheWorldTargetlessChoice | src/textAdventure/gameData.js:27-30 | the only choice without a `nextState` is "Check the time" in `start`; it carries the action `checkTime`, which exists |
| GameData.TheWorldReachableFromStart | src/textAdventure/gameData.js:15-51 | every state is reachable from `start` by following choices (start→looked→outside, start→sleep) |
| GameData.TheWorldStartReachableFromAll | src/textAdventure/gameData.js:15-51 | `start` is reachable again from every state (outside→start, sleep→start, looked→sleep→start) |
| GameData.TheWorldStronglyConnected | src/textAdventure/gameData.js:15-51 | every state reaches every other state |
| Engine.TrailExtend | src/textAdventure/gameEngine.js:41-47 | appending the record of a legal choice to a legal play gives a legal play ending in that choice's next state |
| Engine.TrailStaysInWorld | src/textAdventure/gameEngine.js:41-53 | in a closed world, along any legal play the current state and every state in the history exist, and the current state is reachable from the start |
| Engine.GameEngine.constructor | src/textAdventure/gameEngine.js:7-13 | the engine keeps the given world, starts in its `startingState`, with an empty history and empty custom data |
| Engine.GameEngine.GetCurrentState | src/textAdventure/gameEngine.js:18-20 | yields `states[currentState]` exactly when `currentState` is defined and names a state, and undefined otherwise |
| Engine.GameEngine.GetText | src/textAdventure/gameEngine.js:25-28 | yields the current state's text; it fails, naming the key, exactly when the current state is undefined |
| Engine.GameEngine.GetChoices | src/textAdventure/gameEngine.js:33-36 | yields the current state's `choices`, or `[]` when it has none; it fails exactly when the current state is undefined |
| Engine.GameEngine.MakeChoice | src/textAdventure/gameEngine.js:41-53 | appends exactly one record (previous state, choice) and leaves earlier entries as they were; moves to `choice.nextState`; leaves `customData` and the world unchanged; returns the new state's text and choices, or fails exactly when the new state is undefined; never fails on a legal choice in a closed world; keeps a legal play legal |
| Engine.GameEngine.Reset | src/textAdventure/gameEngine.js:58-62 | whatever came before, the state is again the start with empty history and empty custom data: the snapshot right after construction |
| Engine.GameEngine.SetData | src/textAdventure/gameEngine.js:67-69 | after storing `value` under `key`, `GetData(key)` yields `value` and every other key reads as before; the current state and the history are not touched |
| Engine.GameEngine.GetData | src/textAdventure/gameEngine.js:71-73 | yields the value stored under `key`, and undefined exactly when nothing is stored there |
| Scenarios.Start | src/textAdventure/gameEngine.js:7-13 | a fresh engine on a closed world is in the snapshot right after construction (starting state, empty history, empty custom data), which is a legal play, and its text and choices can be read |
| Scenarios.TakeOffered | src/textAdventure/gameEngine.js:33-53 | taking the i-th choice offered by `getChoices` that has a `nextState` never fails and returns the new state's text and choices; it appends one record, moves to that choice's next state, keeps `customData` and keeps the play legal; the new state exists and is reachable from the start |
| Scenarios.OpenTheDoor | src/textAdventure/gameData.js:16-44 | on the shipped world, "Look around" then "Open the door" shows "You are outside. The adventure begins!" |
| Scenarios.CheckTheTime | src/textAdventure/gameEngine.js:41-53 | on the shipped world, taking "Check the time" records one history entry and then fails with an undefined current state, because the engine does not dispatch actions |
| Scenarios.ResetTwice | src/textAdventure/gameEngine.js:58-62 | resetting twice leaves the engine in the same state as resetting once, and both equal the state after construction |
| Scenarios.StoreAndRead | src/textAdventure/gameEngine.js:67-73 | a value stored under one key reads back, and a different key keeps its value |

## Left out

- The bodies of `actions` (gameData.js:56-59): `checkTime` reads the wall clock and formats it. Only the action names are kept. The engine never consults `actions`, and the model does not dispatch them.
- JavaScript object semantics of the `states` and `customData` lookups: keys inherited from `Object.prototype` (such as `constructor`) and the coercion of non-string keys to strings. States and custom data are modelled as plain dictionaries with string keys.
- `getChoices` also falls back to `[]` for other falsy `choices` values, such as `null`. The model has only "present" and "absent".
- Missing properties of the world itself: a world without `startingState`, or a state without `text`, would yield `undefined` in JavaScript. Here both are required strings, as the shipped data and the format comment at gameData.js:5 always supply them.
- `customData` values are untyped JavaScript values. They are modelled as an opaque type parameter `V`, and storing `undefined` is not distinguished from storing nothing.
- Sharing of the `gameData` object by reference: a caller that changes the world object after construction is not modelled. The world is an immutable value held in a `const` field.
- `makeChoice` is modelled only with the choice values of the `Choice` type. Arbitrary JavaScript objects passed as a choice are not modelled.
- `src/App.jsx` (a countdown page driven by the clock and timers, with floating-point arithmetic), `src/textAdventure/TextAdventure.jsx` (React rendering that calls engine methods absent from `gameEngine.js`) and `src/textAdventure/TextAdventureDemo.jsx` (DOM mounting) are presentation code and are not modelled.

# Shared-arena player state, modelled in Dafny

This project models the client-side logic of a small multiplayer 2D arena in Dafny. Each browser client owns one player record in a remote `players` collection, moves it with the W/A/S/D keys, and shows a roster of every player it sees in the collection. Four pieces of sequential logic are modelled and proved:

- **Movement** (`player_movement.dfy`, module `PlayerMovement`). This is the `handleKeyDown` of `usePlayerMovement`. A key, matched case-insensitively, becomes a one-unit step that is clamped to the 800×600 arena minus the 4-unit player size. The step is a pure function (`Step`). The keydown itself is a method: it reads the player's position from the store, falling back to `(initialX, initialY)`, and writes the new position to that player's record only.
- **Roster and presence** (`realtime_players.dfy`, module `RealtimePlayers`). This is the `useRealtimePlayers` hook, modelled as a class `Hook`.
  - Each snapshot of `players` replaces the roster wholesale.
  - While the current player id is set, the hook keeps one remove-on-disconnect rule armed on that player's record. It also keeps a page-unload handler installed that deletes that record.
  - Cleanup cancels the rule and removes the handler. It runs before the effect re-runs for a new id, and again on unmount.
  - The roster listener's cleanup does not detach it (see below).
- **Nickname update** (`login_form.dfy`, module `LoginForm`). This is `LoginForm`'s `handleSubmit`, as a class `Form`. It moves from idle to loading to either an error or done, around one update of the record's name. The asynchronous handler is split at its single `await`: `Submit` runs up to the update request, and `Settle` runs once the request resolves.
- **Nickname guard** (`player_name_form.dfy`, module `PlayerNameForm`). This is `PlayerNameForm`'s `handleSubmit` and its submit-disabled condition: trim the input, and reject it if nothing is left.

The remote store is an opaque collaborator, modelled as the class `Store.PlayerStore` (`store.dfy`). It holds three things:

- `rows`: the `players` collection, a `map` from id to `Player`.
- `rules`: a `multiset` of the remove-on-disconnect rules pending on this client's connection.
- `log`: every request this client has sent, in order. The log lets contracts state "no read and no write" and "exactly one write". Without it, a write that changes nothing could not be told apart from no write.

Each store operation takes the outcome of its network request as a parameter (`fails`, `lands`), because network outcomes are inputs to the model. `text.dfy` holds JavaScript's `trim`, with its exact whitespace set, and `toLowerCase` on ASCII letters. `options.dfy` holds `Option`.

Four behaviours of the code are worth stating outright:

- On clean unmount the player's record is not deleted. The explicit delete at `src/hooks/useRealtimePlayers.ts:55` is commented out, so only the rule is cancelled and the handler removed. `Hook.Unmount` ensures the rows are unchanged.
- A recognised key always sends one position update, even at the boundary where the clamped position equals the one read.
- The clamp acts only in the direction of motion. A start outside the box is not pulled back on the other axis, or by a key moving away from the violated bound.
- The cleanup at `src/hooks/useRealtimePlayers.ts:23` passes `off` the value `onValue` returned at line 11, which is the unsubscribe function rather than the registered callback. So `off` detaches nothing, and every mount leaves its `players` listener attached. The hook keeps a count of attached listeners: unmounting leaves it unchanged, and React's strict mode (`src/main.tsx:7`), which in development builds mounts twice, ends with one more listener than before.

## Model

| member | source | states |
|---|---|---|
| `Options.Option.GetOr` | src/hooks/usePlayerMovement.ts:14 | the `data \|\| default` fallback: the wrapped value when there is one, otherwise the default |
| `Text.TrimStart` | src/components/PlayerNameForm.tsx:13 | the result is a suffix of the input that does not start with whitespace, and everything dropped is whitespace |
| `Text.TrimEnd` | src/components/PlayerNameForm.tsx:13 | the result is a prefix of the input that does not end with whitespace, and everything dropped is whitespace |
| `Text.Trim` | src/components/PlayerNameForm.tsx:13 | `trim()` is the slice of the input between a blank prefix and a blank suffix, with no whitespace at either end |
| `Text.BlankSlice` | src/components/PlayerNameForm.tsx:13 | a stretch of whitespace characters, taken as a slice, is blank |
| `Text.SliceBetweenBlanks` | src/components/PlayerNameForm.tsx:13 | cutting a blank prefix and then a blank suffix leaves a slice of the input lying between a blank prefix and a blank suffix |
| `Text.TrimEmptyIffBlank` | src/components/LoginForm.tsx:17 | `name.trim()` is empty (falsy) exactly when every character of `name` is whitespace |
| `Text.TrimKeepsTrimmed` | src/components/PlayerNameForm.tsx:13 | trimming a string with no whitespace at either end returns it unchanged |
| `Text.TrimIdempotent` | src/components/PlayerNameForm.tsx:13 | trimming twice gives the same result as trimming once |
| `Text.LowerAscii` | src/hooks/usePlayerMovement.ts:16 | `toLowerCase` keeps the length and maps each character on its own |
| `Text.LowerAsciiIdempotent` | src/hooks/usePlayerMovement.ts:16 | lowering an already-lowered key changes nothing |
| `Store.UpdatesKeepKeyedById` | src/hooks/usePlayerMovement.ts:33 | if every record sits under its own id, it still does after a position update, a name update, a delete or a disconnect |
| `Store.IsPresent` | src/hooks/usePlayerMovement.ts:12 | the `if (!playerId)` / `if (currentPlayerId)` truthiness test: an id counts exactly when it is neither null nor the empty string (also src/hooks/useRealtimePlayers.ts:29) |
| `Store.ReadPosition` | src/hooks/usePlayerMovement.ts:14 | the select returns data exactly when the query succeeds and a record has that id, and the data is that record's x and y |
| `Store.WithPosition` | src/hooks/usePlayerMovement.ts:33 | the update filtered on `id` keeps the same keys, leaves every other record as it was, and sets only x and y of that id's record; if no record has that id, nothing changes |
| `Store.WithName` | src/components/LoginForm.tsx:24-27 | the update filtered on `id` keeps the same keys, leaves every other record as it was, and sets only the name of that id's record |
| `Store.Without` | src/hooks/useRealtimePlayers.ts:44 | `remove` deletes exactly that key and keeps every other record |
| `Store.RemoveIdempotent` | src/hooks/useRealtimePlayers.ts:44 | deleting a record twice leaves the collection as deleting it once |
| `Store.AfterDisconnect` | src/hooks/useRealtimePlayers.ts:31-32 | when the connection drops, a record survives exactly when no armed rule names it, and survivors are unchanged |
| `Store.PlayerStore.SelectPosition` | src/hooks/usePlayerMovement.ts:14 | returns the read position and logs one select |
| `Store.PlayerStore.UpdatePosition` | src/hooks/usePlayerMovement.ts:33 | logs one position update; rows change by `WithPosition` if it lands and stay the same otherwise; every record still sits under its own id |
| `Store.PlayerStore.SendNameUpdate` | src/components/LoginForm.tsx:24-27 | logs one name update when it is sent; the rows are not touched yet |
| `Store.PlayerStore.ResolveNameUpdate` | src/components/LoginForm.tsx:24-28 | when the sent update resolves, rows change by `WithName` if it lands and stay the same otherwise; every record still sits under its own id |
| `Store.PlayerStore.Remove` | src/hooks/useRealtimePlayers.ts:44 | logs one delete; rows change by `Without` if it lands and stay the same otherwise; every record still sits under its own id |
| `Store.PlayerStore.ArmRemoval` | src/hooks/useRealtimePlayers.ts:31-32 | adds one pending rule naming the id and logs the request |
| `Store.PlayerStore.CancelRemoval` | src/hooks/useRealtimePlayers.ts:61 | drops every pending rule naming the id, keeps the others, and logs the request |
| `Store.PlayerStore.Watch` | src/hooks/useRealtimePlayers.ts:11 | logs that the `players` listener is attached |
| `Store.PlayerStore.Unwatch` | src/hooks/useRealtimePlayers.ts:23 | logs the `off` call for the `players` listener |
| `Store.PlayerStore.ConnectionLost` | src/hooks/useRealtimePlayers.ts:31-32 | the store runs every pending rule (rows become `AfterDisconnect`) and then forgets them; every surviving record still sits under its own id |
| `PlayerMovement.Command` | src/hooks/usePlayerMovement.ts:16-30 | the switch on `e.key.toLowerCase()`: up, down, left and right are named exactly by `w`/`W`, `s`/`S`, `a`/`A`, `d`/`D`, so only one-character keys move; with `OnlyWasdMoves` and `UpperCaseKeys` |
| `PlayerMovement.Step` | src/hooks/usePlayerMovement.ts:17-28 | one press changes only the coordinate of its axis and keeps a position inside the arena inside; the clamp itself is stated by `StepIsClampedUnitMove` and `StepClampsAxisOfMotion` |
| `PlayerMovement.KeyStep` | src/hooks/usePlayerMovement.ts:16-31 | an unrecognised key leads nowhere (the `default: return`); a recognised one moves along one axis and keeps an in-arena position in the arena |
| `PlayerMovement.Walk` | src/hooks/usePlayerMovement.ts:10-36 | consecutive keydowns, each starting where the last one ended: keys that name no direction leave the position where it was; see `WalkStaysInArena` and `WalkMovesOneUnitPerKey` |
| `PlayerMovement.StartPosition` | src/hooks/usePlayerMovement.ts:14 | the step starts from the row read, or from `(initialX, initialY)` when there is no row |
| `PlayerMovement.OnlyWasdMoves` | src/hooks/usePlayerMovement.ts:16-30 | a key moves the player exactly when it is one of `w a s d W A S D`; every other key (`ArrowUp`, `Shift`, `ww`, ...) returns before the write |
| `PlayerMovement.CommandIgnoresCase` | src/hooks/usePlayerMovement.ts:16 | a key and its lower-cased form name the same direction |
| `PlayerMovement.UpperCaseKeys` | src/hooks/usePlayerMovement.ts:16-28 | `W`/`S`/`A`/`D` behave like `w`/`s`/`a`/`d`, which mean up, down, left and right |
| `PlayerMovement.StepIsClampedUnitMove` | src/hooks/usePlayerMovement.ts:17-28 | from inside [0,796]×[0,596], a press makes the one-unit move when it stays inside, and no move at all at the boundary |
| `PlayerMovement.StepClampsAxisOfMotion` | src/hooks/usePlayerMovement.ts:17-28 | from any start, a press changes only its own axis; `w`/`a` subtract 1 but never go below 0, and `s`/`d` add 1 but never go above 596/796 |
| `PlayerMovement.OutsideStartSnaps` | src/hooks/usePlayerMovement.ts:23-27 | from x = 900, `d` snaps to 796 while `a` only moves to 899 |
| `PlayerMovement.WalkStaysInArena` | src/hooks/usePlayerMovement.ts:17-28 | a start inside the arena stays inside after any key sequence |
| `PlayerMovement.WalkMovesOneUnitPerKey` | src/hooks/usePlayerMovement.ts:17-28 | after n keys the position is at most n unit steps (Manhattan distance) from an in-arena start: no multi-unit jumps |
| `PlayerMovement.FiveRightPresses` | src/hooks/usePlayerMovement.ts:26-27 | five `d` presses from (100,100) lead to (105,100) |
| `PlayerMovement.RightEdgeHolds` | src/hooks/usePlayerMovement.ts:26-27 | from x = 795, `d` reaches 796 and a second `d` stays at 796 |
| `PlayerMovement.HandleKeyDown` | src/hooks/usePlayerMovement.ts:10-36 | with no player id (null or empty), nothing is read or written; otherwise one select; a recognised key then sends exactly one update, to `playerId`'s record only, carrying the clamped step from the position read (or the initial one), even when it equals the start; any other key writes nothing |
| `RealtimePlayers.Values` | src/hooks/useRealtimePlayers.ts:14 | `Object.values` gives one record per child, in order |
| `RealtimePlayers.Roster` | src/hooks/useRealtimePlayers.ts:12-18 | a null snapshot gives `[]`; otherwise the roster is exactly the snapshot's records |
| `RealtimePlayers.RosterAfter` | src/hooks/useRealtimePlayers.ts:11-19 | the roster after a run of snapshots: with none it is the starting roster, otherwise it is the roster of one of the snapshots, never a merge; `RosterConvergesToLast` pins it to the last one |
| `RealtimePlayers.RosterConvergesToLast` | src/hooks/useRealtimePlayers.ts:11-19 | after any non-empty sequence of snapshots, the roster equals the last snapshot's records |
| `RealtimePlayers.RosterForgetsHistory` | src/hooks/useRealtimePlayers.ts:13-15 | nothing is merged from the previous roster: two histories that end in the same snapshot give the same roster |
| `RealtimePlayers.RulesFor` | src/hooks/useRealtimePlayers.ts:31-32 | the effect accounts for at most one rule, and it names the armed id |
| `RealtimePlayers.EffectRequests` | src/hooks/useRealtimePlayers.ts:29-32 | the effect sends one request, arming the rule for the id, exactly when the id is present |
| `RealtimePlayers.CleanupRequests` | src/hooks/useRealtimePlayers.ts:61 | the cleanup sends one cancel, for the armed id, exactly when a rule was armed |
| `RealtimePlayers.Hook.AtMostOneRule` | src/hooks/useRealtimePlayers.ts:49-64 | under the hook invariant at most one disconnect rule is pending, and it names the current player |
| `RealtimePlayers.Hook.constructor` | src/hooks/useRealtimePlayers.ts:6-7 | the roster starts as `[]`; no listener is attached and no rule armed |
| `RealtimePlayers.Hook.PresenceEffect` | src/hooks/useRealtimePlayers.ts:28-48 | for a present id, arms exactly one rule and installs the handler, both for `players/<id>`; for a null or empty id, does nothing |
| `RealtimePlayers.Hook.PresenceCleanup` | src/hooks/useRealtimePlayers.ts:49-62 | removes the handler and cancels the armed rule, leaving no pending rule |
| `RealtimePlayers.Hook.Mount` | src/hooks/useRealtimePlayers.ts:10-48 | attaches one more listener (one subscribe request), then runs the presence effect; the rows are untouched |
| `RealtimePlayers.Hook.OnValue` | src/hooks/useRealtimePlayers.ts:11-19 | while mounted, a snapshot replaces the roster with `Roster(snapshot)`, ignoring the old roster; a leftover listener after unmount changes nothing |
| `RealtimePlayers.Hook.ChangePlayerId` | src/hooks/useRealtimePlayers.ts:28-64 | for the same id, nothing happens; for a new id, the old rule is cancelled before the new one is armed, so the invariant (at most one rule) holds |
| `RealtimePlayers.Hook.BeforeUnload` | src/hooks/useRealtimePlayers.ts:42-45 | the unload handler, if installed, deletes the current player's record and no other |
| `RealtimePlayers.Hook.Unmount` | src/hooks/useRealtimePlayers.ts:21-62 | sends the `off` request but leaves the listener count unchanged; removes the handler and cancels the rule (no rule left pending); does not delete the record |
| `RealtimePlayers.Hook.StrictModeRemount` | src/main.tsx:7 | in development builds, unmounting and mounting again leaves one more listener attached, the id and roster as they were, the rows untouched, and still exactly the rule for a present id |
| `RealtimePlayers.DisconnectRemovesOwnRecord` | src/hooks/useRealtimePlayers.ts:28-32 | mounting with a present id and then losing the connection removes that player's record, keeps every other record unchanged and leaves no rule pending |
| `LoginForm.Form.constructor` | src/components/LoginForm.tsx:10-13 | the form starts with an empty name, not loading, with no error |
| `LoginForm.Form.ChangeName` | src/components/LoginForm.tsx:48 | typing replaces the name |
| `LoginForm.Form.Submit` | src/components/LoginForm.tsx:15-27 | a blank name sets "Name cannot be empty.", sends nothing and leaves loading false; otherwise loading becomes true and the error is cleared, then exactly one update is sent for `playerId`, carrying the raw name rather than the trimmed one |
| `LoginForm.Form.Settle` | src/components/LoginForm.tsx:24-35 | once the sent update resolves, loading ends whatever the outcome; a failure sets "Failed to set name. Please try again.", does not call `onNameSet` and changes no record; a success calls it once and leaves the error null; only the name of `playerId`'s record changes |
| `PlayerNameForm.HandleSubmit` | src/components/PlayerNameForm.tsx:10-15 | `onSubmitName` is called exactly when the input is not blank, with the input minus its blank ends: a non-empty slice of the input with no whitespace at either end |
| `PlayerNameForm.SubmitDisabled` | src/components/PlayerNameForm.tsx:35 | the button is disabled exactly when the guard would reject the name |
| `PlayerNameForm.SubmittedWithinMaxLength` | src/components/PlayerNameForm.tsx:30 | a name typed within `maxLength` (20) is submitted within 20 characters |
| `PlayerNameForm.TrimmedNamePassesUnchanged` | src/components/PlayerNameForm.tsx:13 | a non-empty name with no whitespace at either end is passed on unchanged |
| `PlayerNameForm.SubmitIdempotent` | src/components/PlayerNameForm.tsx:12-13 | submitting what was submitted gives back the same name |
| `PlayerNameForm.LeadingSpacesDropped` | src/components/PlayerNameForm.tsx:13 | trimming the start of "  Alice " gives "Alice " |
| `PlayerNameForm.TrailingSpaceDropped` | src/components/PlayerNameForm.tsx:13 | trimming the end of "Alice " gives "Alice" |
| `PlayerNameForm.SubmitDropsSurroundingSpaces` | src/components/PlayerNameForm.tsx:12-13 | "  Alice " is submitted as "Alice" |
| `PlayerNameForm.SpacesAreNotSubmitted` | src/components/PlayerNameForm.tsx:12 | a name of spaces only is not submitted |

## Left out

- Network clients. The Supabase client (`src/services/supabase.ts`) and the Firebase client are not modelled; `src/services/firebase` is not part of this model. Both backends are one abstract `PlayerStore`, and the outcome of each request is a parameter. The Firebase `Player` type is taken to be the same record as Supabase's.
- Async interleaving. Two keydowns that interleave between the read and the write are not modelled: each keypress is atomic. `LoginForm` is split at its `await`: other handlers, such as typing (`ChangeName`) or any store request, may run between `Submit` and `Settle`, which is why the name sent is kept in `pending` and `Settle` is stated against the rows at the time it resolves. Interleavings inside one keydown are not modelled.
- Browser event wiring. `addEventListener`/`removeEventListener` for `keydown` and `beforeunload` are modelled only as the `unloadHandler` field; the keydown listener is not modelled.
- Logging and `.catch` branches. These only log, so they are not modelled.
- Rejected disconnect rules. The model assumes `onDisconnect().remove()` and `cancel()` always succeed. A rejected cancel would leave a rule behind, and that is not captured.
- Subscription errors on the `players` listener are not modelled.
- `RealtimePlayers.Hook.Unmount`: that `off` detaches nothing depends on the Firebase client's rule that `off` removes only a listener registered with the very callback it is given. That client is not part of this model.
- `Hook.OnValue`: the order of a snapshot's children is taken as given, not derived from JavaScript's property-order rules.
- `RealtimePlayers.Hook.PresenceEffect`: the Firebase client's `ref` throws for a path containing `.`, `#`, `$`, `[` or `]`, so for such an id the source arms no rule, installs no handler and the error reaches React. The model treats every truthy id as a valid key and arms the rule and handler for it. This also holds for `Mount`, `ChangePlayerId`, `StrictModeRemount` and `DisconnectRemovesOwnRecord`, which reach `ref` only through `PresenceEffect`.
- Ids containing `/`. In the store, `players/<id>` with a `/` in the id addresses a nested path; the model treats every id as one key.
- `PlayerNameForm.SubmittedWithinMaxLength`: strings are modelled as sequences of Unicode scalar values, and their lengths are counted in scalars. The input's `maxLength` and JavaScript's `.length` count UTF-16 code units, so the lemma bounds scalars; a character outside the Basic Multilingual Plane counts once here and twice in the source. `trim` is unaffected, since every whitespace character lies in that plane.
- Positions are integers. JavaScript numbers that are fractional or NaN are not modelled.
- `Text.LowerAscii`: lower-cases only A–Z, not all of Unicode. No other character lower-cases to `w`, `a`, `s` or `d`, so key matching is exact.
- `LoginForm.Form.Submit`: requires that no update is pending. While loading, the button is disabled (`src/components/LoginForm.tsx:56`), so the form cannot be submitted a second time.
- `PlayerMovement.WalkStaysInArena` and the other `Walk` lemmas cover consecutive keys on the pure step. A run of keydowns through the store composes the same way only when each read succeeds and each write lands, as `HandleKeyDown`'s contract shows per key.
- Rendering (`GameField.tsx`, `PlayerList.tsx`), JSX markup and styling are not modelled.
- Wiring files (`GameSession.tsx`, `App.tsx`, `main.tsx`) are not modelled. They call the hooks and forms with signatures that differ from the versions modelled here.
- Identity creation is not modelled: random color, spawn position and a persisted local id are not in the modelled code.

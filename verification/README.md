# Slimes Lab game-state store, in Dafny

A model of the in-memory game-state store of Slimes Lab (`js/logic/game_state.js`)
and the task, economy and wing-unlock logic that updates it.

- `game_types.dfy` (module `GameTypes`): the values in the `gameState` record.
  These are the user, the profile with its four counters, creatures,
  customization records, tasks, flask bodies and the configuration constants.
- `text_rules.dfy` (module `TextRules`): two string rules.
  - The username fallback: the metadata username, or else the email up to its first `@`.
  - The wing element id: the wing key with only its first `_` turned into `-`.
- `wing_unlock.dfy` (module `WingUnlock`): the unlock check in closed form, over a
  map from element id to element state.
  - A page element is `Fogged` or `Unlocked`.
  - An element the page does not have is an id missing from the map.
- `transitions.dfy` (module `Transitions`): each operation as a function from the old
  record to the new one, and the lemmas about those functions.
- `game_store.dfy` (module `GameStore`): the class `Store`.
  - Its fields are the `gameState` record plus `wingElements`, the stand-in for the page.
  - Its methods update those fields in place, as the JavaScript does.
  - The methods that change the record are proved to leave it equal to their function
    in `Transitions` (`Paid`, `Initialized`, `EnergyUpdated`, `StarsUpdated`,
    `TaskAttempted`, `Customized`).
  - What a method does to the page, and `CheckWingUnlock` as a whole, is stated with
    `WingUnlock.Unlock`. `SaveLocalSlimes` is stated with `Transitions.Snapshot`.
  - The method `FusionScenario` is a client that runs the "Fundir Slimes" flow on a fresh store.

The constants imported from `config.js` (`MAX_ENERGY`, `DIAMONDS_INITIAL`,
`GOMA_COINS_INITIAL`) are a `Config` value. The wing catalog `LAB_ITEMS_DATA` is a
`seq<WingData>`. Both are fixed when a `Store` is created, because `config.js` and
`js/data/lab_items_data.js` are not part of this model. The completion time stamp is
a parameter `now`.

Three consequences of the code that are easy to miss:

- The "Limpar Frasco" task unlocks `mesa_principal` in the code. So completing it
  holds the task for item selection. It does not reset the store.
- `finalizeCustomization` appends a record and then re-initializes. The
  re-initialization puts back the one-record baseline list, so the appended record
  is gone afterwards. `Transitions.Customized` states this.
- In the reset branch of `attemptCompleteTask`, the re-initialization also throws
  away the payment and the completion flag. `Transitions.AttemptResets` states this.

## Model

| member | source | states |
|---|---|---|
| `GameStore.Store.constructor` | js/logic/game_state.js:10-19 | the store starts unloaded: no user, no profile, empty lists, spawner charge 0, no pending task |
| `GameStore.Store.InitializeGameState` | js/logic/game_state.js:25-105 | the new record is the baseline for the user; the wing check then runs with the baseline 10 stars |
| `Transitions.Initialized` | js/logic/game_state.js:27-99 | after a reset: 10 stars, full energy, coins and diamonds are 10 times their configured start; the creatures, the customization list and the tasks are exactly the baseline lists (so 4 slimes, 1 record, 3 uncompleted mock tasks); spawner charge 15; the flask bodies and the pending task are untouched; the record is well formed |
| `Transitions.InitializedForgets` | js/logic/game_state.js:27-99 | a reset keeps nothing of the old record except the flask bodies and the pending task |
| `Transitions.BaselineSlimes` | js/logic/game_state.js:40-45 | four creatures of four different colours, all at level 1 with quantity 1 |
| `Transitions.BaselineCustomization` | js/logic/game_state.js:48-56 | exactly one record, unlocked, belonging to the user |
| `Transitions.BaselineTaskDefs` | js/logic/game_state.js:59-96 | three task definitions, each with a positive goma-coin cost and a set `unlocks_item_id` |
| `Transitions.BaselineTasks` | js/logic/game_state.js:59-96 | three tasks with distinct ids, none completed or stamped |
| `TextRules.Username` | js/logic/game_state.js:32 | a non-empty metadata username wins; otherwise the username is the prefix of the email before its first `@` |
| `TextRules.EmailPrefix` | js/logic/game_state.js:32 | the result is a prefix of the email, has no `@`, and is followed by `@` unless it is the whole email |
| `TextRules.EmailPrefixUnique` | js/logic/game_state.js:32 | those three properties determine the email prefix: no other string has them |
| `GameStore.Store.UpdateEnergy` | js/logic/game_state.js:111-123 | the record becomes `EnergyUpdated` of the old one; the store stays well formed |
| `Transitions.EnergyUpdated` | js/logic/game_state.js:111-117 | without a profile nothing changes; with one, energy becomes old + amount when that is at most the maximum and the maximum otherwise, with no lower clamp; it never ends above the maximum; nothing else changes |
| `Transitions.EnergyAtMaxStays` | js/logic/game_state.js:114-117 | at full energy, adding any non-negative amount (such as the maximum itself) changes nothing |
| `GameStore.Store.UpdateStarCount` | js/logic/game_state.js:129-141 | the record becomes `StarsUpdated` of the old one; with a profile the wing check then runs with the new count; without one the page is untouched |
| `Transitions.StarsUpdated` | js/logic/game_state.js:129-133 | without a profile nothing changes; with one, stars change by exactly the amount and nothing else changes |
| `Transitions.StarsCompose` | js/logic/game_state.js:132-133 | two star updates in a row equal one update by their sum |
| `GameStore.Store.CheckWingUnlock` | js/logic/game_state.js:146-161 | the loop over the catalog leaves the page equal to `Unlock` of the old page with the profile's star count |
| `WingUnlock.Unlock` | js/logic/game_state.js:150-160 | no element is created or removed; an unlocked wing stays unlocked; the only change is fogged to unlocked, for a wing whose threshold is met; every present wing whose threshold is met ends unlocked |
| `WingUnlock.UnlockNone` | js/logic/game_state.js:150-160 | with no wing visited yet the page is unchanged |
| `WingUnlock.UnlockExtend` | js/logic/game_state.js:150-160 | adding a wing to the catalog gives the same page as one more loop iteration, for that wing, after `Unlock` over the rest |
| `WingUnlock.UnlockLoopIsUnlock` | js/logic/game_state.js:150-160 | the loop, run over the catalog in its order, yields exactly `Unlock`, so the order of the catalog does not matter |
| `WingUnlock.UnlockAbsorbs` | js/logic/game_state.js:154-156 | a check with at least as many stars as an earlier one absorbs it |
| `WingUnlock.UnlockIdempotent` | js/logic/game_state.js:146-161 | a second consecutive check with the same stars changes nothing |
| `TextRules.ElementId` | js/logic/game_state.js:152 | the element id has the key's length and keeps every character of the key, except that the first `_` (and only that one) becomes `-` |
| `GameStore.Store.AttemptCompleteTask` | js/logic/game_state.js:167-206 | the new record and the outcome are `TaskAttempted` of the old record; only the reset branch touches the page, with the baseline stars; when every task is a mock task (as after `InitializeGameState`) the reset branch is not taken and the tasks stay mock tasks |
| `GameStore.Store.Pay` | js/logic/game_state.js:183-194 | the record becomes `Paid` of the old one; the store stays well formed |
| `Transitions.FindTask` | js/logic/game_state.js:168 | the index of the first task with the id, or none exactly when no task has it |
| `Transitions.TaskAttempted` | js/logic/game_state.js:167-206 | the outcome is not-found exactly when no task has the id; not-found and insufficient funds change nothing; a reset equals a re-initialization of the old record; awaiting selection holds a completed task from the list that unlocks the named item |
| `Transitions.Paid` | js/logic/game_state.js:183-194 | the goma-coin balance drops by exactly the cost; the chosen task alone is flagged and stamped; no other task, counter or field changes |
| `Transitions.AttemptInsufficientFunds` | js/logic/game_state.js:177-180 | a goma-coin cost above the balance (strict `<`) changes nothing |
| `Transitions.AttemptExactBalance` | js/logic/game_state.js:177-187 | for a task that unlocks an item, a goma-coin cost equal to the balance succeeds and leaves 0 (a task that unlocks nothing resets the balance to its starting value instead, see `AttemptResets`) |
| `Transitions.AttemptUncheckedCostGoesNegative` | js/logic/game_state.js:177-187 | a cost of another type is not checked, and the goma-coin balance can go negative |
| `Transitions.AttemptPays` | js/logic/game_state.js:183-200 | when the task unlocks an item: the outcome names the item; coins drop by exactly the cost, even for an already completed task; only that task is flagged; it becomes the pending task; nothing else changes |
| `Transitions.AttemptResets` | js/logic/game_state.js:201-205 | when the task unlocks nothing, the result is the baseline reset of the old record, so the payment is discarded too |
| `Transitions.AttemptOnMockTasksNeverResets` | js/logic/game_state.js:197-205 | while all tasks are mock tasks (which all unlock an item), an attempt never takes the reset branch, and the tasks stay mock tasks |
| `GameStore.Store.FinalizeCustomization` | js/logic/game_state.js:213-232 | needs a pending task; the record becomes `Customized` of the old one, and the page sees the baseline wing check |
| `Transitions.Customized` | js/logic/game_state.js:213-226 | the result is exactly a re-initialization of the old record: the customization list is the one baseline record, so an item other than `mesa_principal` is not in it |
| `GameStore.Store.SaveLocalSlimes` | js/logic/game_state.js:237-246 | the saved list is `Snapshot` of the bodies in the flask |
| `Transitions.Snapshot` | js/logic/game_state.js:238-244 | one entry per body, in order, carrying that body's id, level, colour and position (the projection property itself is `SnapshotKeepsExactlyPersistedFields`) |
| `Transitions.SnapshotKeepsExactlyPersistedFields` | js/logic/game_state.js:238-244 | two flask contents give equal snapshots if and only if they agree body by body on id, level, colour and position |
| `Transitions.Apply` | js/logic/game_state.js:25-232 | one store operation on a well-formed record gives a well-formed record; only finalizing without a pending task has no result |
| `Transitions.Run` | js/logic/game_state.js:10-232 | every record reached from the unloaded store by a sequence of operations is well formed |
| `Transitions.ReachableHasMockTasks` | js/logic/game_state.js:59-96 | every reachable record holds only the three mock tasks |
| `Transitions.ReachableAttemptNeverResets` | js/logic/game_state.js:197-205 | on every reachable record, completing a task never takes the reset branch |
| `GameStore.FusionScenario` | js/logic/game_state.js:167-226 | on a fresh store, "Fundir Slimes" (cost 200) succeeds exactly when the starting coins reach 200, leaving them 200 lower and awaiting `acelerador_quantico`; after finalizing with `tech_neon`, the customization list is the baseline one |

## Left out

- `localStorage` and JSON: `saveLocalSlimes` is modelled up to the projection. Writing the string to the `slimes_in_flask` slot, and `loadLocalSlimes`, which only logs, are not modelled.
- Page and UI effects are no-ops in the model: `renderHUD`, `renderTasks`, `openItemSelectionModal`, `closeItemSelectionModal`, `alert` and `console`. The CSS classes of a wing element are reduced to `Fogged` or `Unlocked`. An element carrying neither class, or both, is not represented.
- The clock: the `completed_at` stamp is the parameter `now`.
- `config.js` and `js/data/lab_items_data.js` are not part of this model. Their values are parameters. `INITIAL_ENERGY`, `STARS_FOR_ITEM_UNLOCK` and `STARS_FOR_WING_UNLOCK` are imported by the source but never used there.
- Numbers: JavaScript numbers are doubles. The model uses unbounded integers, so floating-point rounding of large counters is not modelled.
- Aliasing: `current_task_to_complete` refers to the same object as the task in the list. The model keeps a copy. Only its `wing_id` is read later, and nothing changes that, so the copy behaves the same.
- `async`/`await` and reentrancy: the operations run one after another. A second click racing the first is not modelled.
- GameStore.Store.InitializeGameState: the model assumes that `renderTasks`, `openItemSelectionModal` and `closeItemSelectionModal` resolve to functions defined by the page. `game_state.js` imports only `renderHUD` and defines none of the three. If they are not page-level names, the call at line 103 throws a `ReferenceError` after the record is reset but before the wing check at line 104 runs; so the wing check after an initialization, a reset or a finalization would not happen. Likewise `attemptCompleteTask` would throw at line 200 after paying and flagging the task, and `finalizeCustomization` at line 229 after the re-initialization.
- Crashes: the JavaScript throws a `TypeError` when `checkWingUnlock` runs without a profile, or `finalizeCustomization` without a pending task. In the model these are preconditions.
- Physics: flask bodies are values with a position. Velocity and angle stand for the physics state that is not saved. The physics engine is not part of this model.
- `js/logic/auth.js` and `js/app.js` are not part of this model. They are wrappers over a backend client and page event wiring.

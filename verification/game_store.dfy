/**
 The gameState store of js/logic/game_state.js as an object whose operations
 update its fields in place. `wingElements` stands for the wing elements of
 the page that checkWingUnlock reads and changes; the configuration constants
 and the wing catalog are fixed when the store is created.
 */
module GameStore {
  import opened GameTypes
  import opened TextRules
  import opened WingUnlock
  import opened Transitions

  class Store {
    const config: Config
    const catalog: seq<WingData>

    var user: Option<User>
    var profile: Option<Profile>
    var slimes: seq<Slime>
    var customization: seq<CustomizationRecord>
    var tasks: seq<Task>
    var spawnerCharge: int
    var currentSlimes: seq<FlaskSlime>
    var currentTaskToComplete: Option<Task>

    /** Element id to element state; an id that is not a key is an element the page lacks. */
    var wingElements: map<string, WingView>

    /** The gameState record as a value. */
    ghost function Data(): GameData
      reads this
    {
      GameData(user, profile, slimes, customization, tasks, spawnerCharge, currentSlimes, currentTaskToComplete)
    }

    ghost predicate Valid()
      reads this
    {
      WellFormed(Data(), config)
    }

    /** The store as the module creates it: nothing loaded yet. */
    constructor (config: Config, catalog: seq<WingData>, page: map<string, WingView>)
      ensures Valid() && Data() == Unloaded()
      ensures this.config == config && this.catalog == catalog && wingElements == page
    {
      this.config := config;
      this.catalog := catalog;
      user, profile := None, None;
      slimes, customization, tasks := [], [], [];
      spawnerCharge := 0;
      currentSlimes := [];
      currentTaskToComplete := None;
      wingElements := page;
    }

    /** initializeGameState(u): reset to the baseline, then run the wing check
        (with the baseline star count). */
    method InitializeGameState(u: User)
      modifies this
      ensures Valid()
      ensures Data() == Initialized(old(Data()), config, u) && MockTasksOnly(Data())
      ensures wingElements == Unlock(old(wingElements), catalog, BaselineStars)
    {
      user := Some(u);
      profile := Some(BaselineProfile(config, u));
      slimes := BaselineSlimes();
      customization := BaselineCustomization(u.id);
      tasks := BaselineTasks();
      spawnerCharge := BaselineSpawnerCharge;
      CheckWingUnlock();
    }

    /** updateEnergy(amount): no-op without a profile; otherwise energy grows by
        `amount` and is capped at the maximum. */
    method UpdateEnergy(amount: int)
      requires Valid()
      modifies this`profile
      ensures Valid()
      ensures Data() == EnergyUpdated(old(Data()), config, amount)
    {
      if profile.None? {
        return;
      }
      var newEnergy := profile.value.currentEnergy + amount;
      newEnergy := if newEnergy < config.maxEnergy then newEnergy else config.maxEnergy;
      profile := Some(profile.value.(currentEnergy := newEnergy));
    }

    /** updateStarCount(amount): no-op without a profile; otherwise the star count
        changes by `amount` and the wing check runs with the new count. */
    method UpdateStarCount(amount: int)
      requires Valid()
      modifies this`profile, this`wingElements
      ensures Valid()
      ensures Data() == StarsUpdated(old(Data()), amount)
      ensures old(profile).None? ==> wingElements == old(wingElements)
      ensures old(profile).Some? ==>
        wingElements == Unlock(old(wingElements), catalog, old(profile).value.starCount + amount)
    {
      if profile.None? {
        return;
      }
      var newStarCount := profile.value.starCount + amount;
      profile := Some(profile.value.(starCount := newStarCount));
      CheckWingUnlock();
    }

    /** checkWingUnlock(): visits every catalog wing and unlocks its element when the
        element exists, is fogged, and the threshold is met. Reads the profile's
        star count, so a profile must be loaded. */
    method CheckWingUnlock()
      requires profile.Some?
      modifies this`wingElements
      ensures wingElements == Unlock(old(wingElements), catalog, profile.value.starCount)
    {
      var stars := profile.value.starCount;
      ghost var page := wingElements;
      var i := 0;
      while i < |catalog|
        invariant 0 <= i <= |catalog|
        invariant wingElements == UnlockLoop(page, catalog[..i], stars)
      {
        var wing := catalog[i];
        var id := ElementId(wing.key);
        if id in wingElements && stars >= wing.unlockStars && wingElements[id] == Fogged {
          wingElements := wingElements[id := Unlocked];
        }
        assert catalog[..i + 1][..i] == catalog[..i];
        i := i + 1;
      }
      assert catalog[..i] == catalog;
      UnlockLoopIsUnlock(page, catalog, stars);
    }

    /** attemptCompleteTask(taskId): look the task up, check funds, pay, flag the task;
        then hold it for item selection, or reset the store when it unlocks nothing.
        `now` is the completion time stamp. */
    method AttemptCompleteTask(taskId: string, now: Timestamp) returns (outcome: Outcome)
      requires Valid()
      modifies this
      ensures Valid()
      ensures Step(Data(), outcome) == TaskAttempted(old(Data()), config, taskId, now)
      ensures outcome.CompletedAndReset? ==> wingElements == Unlock(old(wingElements), catalog, BaselineStars)
      ensures !outcome.CompletedAndReset? ==> wingElements == old(wingElements)
      // with only the mock tasks loaded (as always after InitializeGameState) there is no reset
      ensures old(MockTasksOnly(Data())) ==> !outcome.CompletedAndReset? && MockTasksOnly(Data())
    {
      ghost var before := Data();
      var found := FindTask(tasks, taskId);
      if found.None? {
        return NotFound;
      }
      var i := found.value;
      var task := tasks[i];
      var costAmount := task.def.costAmount;
      if task.def.costType == CheckedCostType && profile.value.gomaCoins < costAmount {
        AttemptInsufficientFunds(before, config, taskId, now, i);
        return InsufficientFunds;
      }
      Pay(i, now);
      if UnlocksItem(task.def) {
        currentTaskToComplete := Some(tasks[i]);
        outcome := AwaitingSelection(task.def.unlocksItemId.value);
        AttemptPays(before, config, taskId, now, i);
      } else {
        // a mock task always unlocks an item, so this branch needs some other task
        assert !MockTasksOnly(before) by {
          assert before.tasks[i].def == task.def;
        }
        InitializeGameState(user.value);
        outcome := CompletedAndReset;
        AttemptResets(before, config, taskId, now, i);
      }
    }

    /** The payment step of attemptCompleteTask: the cost of task `i` leaves the
        goma-coin balance, whatever its type, and the task is flagged completed at `now`. */
    method Pay(i: nat, now: Timestamp)
      requires Valid() && i < |tasks|
      modifies this`profile, this`tasks
      ensures Valid()
      ensures Data() == Paid(old(Data()), i, now)
    {
      var newCoins := profile.value.gomaCoins - tasks[i].def.costAmount;
      profile := Some(profile.value.(gomaCoins := newCoins));
      tasks := tasks[i := Completed(tasks[i], now)];
    }

    /** finalizeCustomization(itemId, skinId): append the record for the pending task's
        wing, then re-initialize (which replaces the list just extended). */
    method FinalizeCustomization(itemId: string, skinId: string)
      requires Valid() && currentTaskToComplete.Some?
      modifies this
      ensures Valid()
      ensures Data() == Customized(old(Data()), config, itemId, skinId) && MockTasksOnly(Data())
      ensures wingElements == Unlock(old(wingElements), catalog, BaselineStars)
    {
      var userId := user.value.id;
      customization := customization + [
        CustomizationRecord(userId, itemId, currentTaskToComplete.value.def.wingId, true, skinId)];
      InitializeGameState(user.value);
    }

    /** The projection step of saveLocalSlimes: each body in the flask reduced to
        its id, level, colour and position, in order. */
    method SaveLocalSlimes() returns (saved: seq<SavedSlime>)
      ensures saved == Snapshot(currentSlimes)
    {
      saved := [];
      var i := 0;
      while i < |currentSlimes|
        invariant 0 <= i <= |currentSlimes|
        invariant saved == Snapshot(currentSlimes[..i])
      {
        var slime := currentSlimes[i];
        saved := saved + [SavedSlime(slime.id, slime.level, slime.color, slime.position)];
        i := i + 1;
      }
      assert currentSlimes[..i] == currentSlimes;
    }
  }

  /** The "Fundir Slimes" scenario from a fresh store: load a user, complete
      mock-task-2 (cost 200, unlocks acelerador_quantico), then choose the skin
      tech_neon. Returns the outcome, the balance after the attempt, and the
      customization list after finalizing. */
  method FusionScenario(cfg: Config, catalog: seq<WingData>, page: map<string, WingView>, u: User, now: Timestamp)
    returns (outcome: Outcome, coinsAfterTask: int, recordsAfterFinalize: seq<CustomizationRecord>)
    ensures cfg.gomaCoinsInitial * CurrencyMultiplier >= 200 ==>
      outcome == AwaitingSelection("acelerador_quantico") &&
      coinsAfterTask == cfg.gomaCoinsInitial * CurrencyMultiplier - 200 &&
      recordsAfterFinalize == BaselineCustomization(u.id)
    ensures cfg.gomaCoinsInitial * CurrencyMultiplier < 200 ==>
      outcome == InsufficientFunds &&
      coinsAfterTask == cfg.gomaCoinsInitial * CurrencyMultiplier &&
      recordsAfterFinalize == BaselineCustomization(u.id)
  {
    var store := new Store(cfg, catalog, page);
    store.InitializeGameState(u);
    assert store.tasks[1].id == "mock-task-2";
    if cfg.gomaCoinsInitial * CurrencyMultiplier >= 200 {
      AttemptPays(store.Data(), cfg, "mock-task-2", now, 1);
    } else {
      AttemptInsufficientFunds(store.Data(), cfg, "mock-task-2", now, 1);
    }
    outcome := store.AttemptCompleteTask("mock-task-2", now);
    coinsAfterTask := store.profile.value.gomaCoins;
    if outcome.AwaitingSelection? {
      store.FinalizeCustomization(outcome.itemId, "tech_neon");
    }
    recordsAfterFinalize := store.customization;
  }
}

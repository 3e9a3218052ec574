/**
 Each operation of the game-state store (js/logic/game_state.js) as a function
 from the old gameState record to the new one, with the properties the
 operations promise. The class GameStore.Store is proved against these.
 */
module Transitions {
  import opened GameTypes
  import opened TextRules

  const BaselineStars: int := 10
  const BaselineSpawnerCharge: int := 15
  /** The factor applied to the configured starting currencies. */
  const CurrencyMultiplier: int := 10
  /** The only cost type whose balance is checked before paying. */
  const CheckedCostType: string := "goma_coins"

  /** The record before any user is loaded: null user and profile, empty lists. */
  function Unloaded(): GameData {
    GameData(None, None, [], [], [], 0, [], None)
  }

  /** What holds of every record the store can reach: a profile exactly when a
      user is loaded, tasks and a pending task only with a user, and energy
      never above the configured maximum. */
  predicate WellFormed(d: GameData, cfg: Config) {
    (d.user.Some? <==> d.profile.Some?) &&
    (d.tasks != [] ==> d.profile.Some?) &&
    (d.currentTaskToComplete.Some? ==> d.user.Some?) &&
    (d.profile.Some? ==> d.profile.value.currentEnergy <= cfg.maxEnergy)
  }

  /** Every task of the record is one of the three mock tasks. */
  predicate MockTasksOnly(d: GameData) {
    forall j :: 0 <= j < |d.tasks| ==> d.tasks[j].def in BaselineTaskDefs()
  }

  /** A truthy unlocks_item_id: present and not the empty string. */
  predicate UnlocksItem(def: TaskDef) {
    def.unlocksItemId.Some? && def.unlocksItemId.value != ""
  }

  // ---------------------------------------------------------------- baseline

  function BaselineProfile(cfg: Config, u: User): Profile {
    Profile(u.id, Username(u), BaselineStars,
            cfg.diamondsInitial * CurrencyMultiplier, cfg.gomaCoinsInitial * CurrencyMultiplier,
            cfg.maxEnergy)
  }

  /** One creature of each base colour, level 1, quantity 1. */
  function BaselineSlimes(): (r: seq<Slime>)
    ensures |r| == 4
    ensures forall j :: 0 <= j < |r| ==> r[j].level == 1 && r[j].quantity == 1
    ensures forall j, k :: 0 <= j < k < |r| ==> r[j].color != r[k].color
  {
    var r := [ Slime("mock-slime-1", "Roxo", 1, 1),
               Slime("mock-slime-2", "Azul", 1, 1),
               Slime("mock-slime-3", "Verde", 1, 1),
               Slime("mock-slime-4", "Amarelo", 1, 1) ];
    assert r[0].color[0] == 'R' && r[1].color[0] == 'A' && r[2].color[0] == 'V' && r[3].color[0] == 'A';
    assert r[1].color[1] == 'z' && r[3].color[1] == 'm';
    r
  }

  /** The single pre-unlocked item: the main table of the fusion bay. */
  function BaselineCustomization(userId: string): (r: seq<CustomizationRecord>)
    ensures |r| == 1 && r[0].userId == userId && r[0].isUnlocked
  {
    [CustomizationRecord(userId, "mesa_principal", "fusion_bay", true, "tech_neon")]
  }

  /** The definitions of the three mock tasks; each costs goma coins and unlocks an item. */
  function BaselineTaskDefs(): (r: seq<TaskDef>)
    ensures |r| == 3
    ensures forall def :: def in r ==> def.costType == CheckedCostType && def.costAmount > 0 && UnlocksItem(def)
  {
    [ TaskDef("Limpar Frasco", "Gaste 10 de energia para limpar o frasco.", "fusion_bay",
              "goma_coins", 100, Some("mesa_principal")),
      TaskDef("Fundir Slimes", "Fundir 2 Slimes Roxo Nível 1.", "fusion_bay",
              "goma_coins", 200, Some("acelerador_quantico")),
      TaskDef("Coletar Goma", "Coletar 500 Goma Coins.", "astro_garden",
              "goma_coins", 500, Some("estufa_astro")) ]
  }

  /** The three mock tasks, none completed, with distinct ids. */
  function BaselineTasks(): (r: seq<Task>)
    ensures |r| == |BaselineTaskDefs()|
    ensures forall j :: 0 <= j < |r| ==>
      !r[j].isCompleted && r[j].completedAt.None? && r[j].def == BaselineTaskDefs()[j]
    ensures forall j, k :: 0 <= j < k < |r| ==> r[j].id != r[k].id
  {
    var defs := BaselineTaskDefs();
    var r := [ Task("mock-task-1", false, None, defs[0]),
               Task("mock-task-2", false, None, defs[1]),
               Task("mock-task-3", false, None, defs[2]) ];
    assert r[0].id[10] == '1' && r[1].id[10] == '2' && r[2].id[10] == '3';
    r
  }

  // ---------------------------------------------------------------- operations

  /** initializeGameState(u): the record is reset to the baseline for `u`;
      the bodies in the flask and the pending task are not touched. */
  function Initialized(d: GameData, cfg: Config, u: User): (r: GameData)
    ensures r.user == Some(u) && r.profile.Some?
    ensures r.profile.value.id == u.id && r.profile.value.username == Username(u)
    ensures r.profile.value.starCount == BaselineStars
    ensures r.profile.value.currentEnergy == cfg.maxEnergy
    ensures r.profile.value.gomaCoins == cfg.gomaCoinsInitial * CurrencyMultiplier
    ensures r.profile.value.diamondCount == cfg.diamondsInitial * CurrencyMultiplier
    ensures |r.slimes| == 4 && |r.customization| == 1 && |r.tasks| == 3
    ensures r.slimes == BaselineSlimes() && r.customization == BaselineCustomization(u.id)
    ensures r.tasks == BaselineTasks() && MockTasksOnly(r)
    ensures forall j :: 0 <= j < |r.tasks| ==> !r.tasks[j].isCompleted
    ensures r.spawnerCharge == BaselineSpawnerCharge
    ensures r.currentSlimes == d.currentSlimes && r.currentTaskToComplete == d.currentTaskToComplete
    ensures WellFormed(r, cfg)
  {
    d.(user := Some(u),
       profile := Some(BaselineProfile(cfg, u)),
       slimes := BaselineSlimes(),
       customization := BaselineCustomization(u.id),
       tasks := BaselineTasks(),
       spawnerCharge := BaselineSpawnerCharge)
  }

  /** updateEnergy(amount): energy grows by `amount`, capped at the maximum, with no floor. */
  function EnergyUpdated(d: GameData, cfg: Config, amount: int): (r: GameData)
    ensures d.profile.None? ==> r == d
    ensures d.profile.Some? ==> (
      r.profile.Some? &&
      var before, after := d.profile.value, r.profile.value;
      after.currentEnergy <= cfg.maxEnergy &&
      (before.currentEnergy + amount <= cfg.maxEnergy ==> after.currentEnergy == before.currentEnergy + amount) &&
      (before.currentEnergy + amount > cfg.maxEnergy ==> after.currentEnergy == cfg.maxEnergy) &&
      after.(currentEnergy := before.currentEnergy) == before)
    ensures r.(profile := d.profile) == d
    ensures WellFormed(d, cfg) ==> WellFormed(r, cfg)
  {
    match d.profile
    case None => d
    case Some(p) =>
      var energy := p.currentEnergy + amount;
      var capped := if energy < cfg.maxEnergy then energy else cfg.maxEnergy;
      d.(profile := Some(p.(currentEnergy := capped)))
  }

  /** updateStarCount(amount), record part: stars change by exactly `amount`. */
  function StarsUpdated(d: GameData, amount: int): (r: GameData)
    ensures d.profile.None? ==> r == d
    ensures d.profile.Some? ==> (
      r.profile.Some? &&
      r.profile.value.starCount == d.profile.value.starCount + amount &&
      r.profile.value.(starCount := d.profile.value.starCount) == d.profile.value)
    ensures r.(profile := d.profile) == d
  {
    match d.profile
    case None => d
    case Some(p) => d.(profile := Some(p.(starCount := p.starCount + amount)))
  }

  /** tasks.find(t => t.id === id): the index of the first task with that id. */
  function FindTask(tasks: seq<Task>, id: string): (r: Option<nat>)
    ensures r.Some? ==> (
      r.value < |tasks| && tasks[r.value].id == id &&
      forall j :: 0 <= j < r.value ==> tasks[j].id != id)
    ensures r.None? ==> forall j :: 0 <= j < |tasks| ==> tasks[j].id != id
  {
    if tasks == [] then None
    else if tasks[0].id == id then Some(0)
    else
      match FindTask(tasks[1..], id)
      case None => None
      case Some(k) => Some(k + 1)
  }

  /** The funds check: it applies to the goma-coin cost type only, and is strict. */
  predicate Blocked(def: TaskDef, coins: int) {
    def.costType == CheckedCostType && coins < def.costAmount
  }

  function Completed(t: Task, now: Timestamp): Task {
    t.(isCompleted := true, completedAt := Some(now))
  }

  /** The payment step: the cost leaves the goma-coin balance whatever its type,
      and task `i` alone is flagged completed. */
  function Paid(d: GameData, i: nat, now: Timestamp): (r: GameData)
    requires d.profile.Some? && i < |d.tasks|
    ensures r.profile.Some?
    ensures r.profile.value.gomaCoins == d.profile.value.gomaCoins - d.tasks[i].def.costAmount
    ensures r.profile.value.(gomaCoins := d.profile.value.gomaCoins) == d.profile.value
    ensures |r.tasks| == |d.tasks|
    ensures r.tasks[i].isCompleted && r.tasks[i].completedAt == Some(now)
    ensures r.tasks[i].id == d.tasks[i].id && r.tasks[i].def == d.tasks[i].def
    ensures forall j :: 0 <= j < |d.tasks| && j != i ==> r.tasks[j] == d.tasks[j]
    ensures r.(profile := d.profile, tasks := d.tasks) == d
  {
    var p := d.profile.value;
    d.(profile := Some(p.(gomaCoins := p.gomaCoins - d.tasks[i].def.costAmount)),
       tasks := d.tasks[i := Completed(d.tasks[i], now)])
  }

  /** attemptCompleteTask(id): look up, check funds, pay, flag, then either hold the
      task for item selection or reset the whole record. */
  function TaskAttempted(d: GameData, cfg: Config, id: string, now: Timestamp): (r: Step)
    requires WellFormed(d, cfg)
    ensures WellFormed(r.data, cfg)
    ensures r.outcome.NotFound? <==> forall j :: 0 <= j < |d.tasks| ==> d.tasks[j].id != id
    ensures r.outcome.NotFound? || r.outcome.InsufficientFunds? ==> r.data == d
    ensures r.outcome.CompletedAndReset? ==> r.data == Initialized(d, cfg, d.user.value)
    ensures r.outcome.AwaitingSelection? ==>
      r.data.currentTaskToComplete.Some? && r.data.currentTaskToComplete.value.isCompleted &&
      r.data.currentTaskToComplete.value in r.data.tasks &&
      r.data.currentTaskToComplete.value.def.unlocksItemId == Some(r.outcome.itemId)
  {
    match FindTask(d.tasks, id)
    case None => Step(d, NotFound)
    case Some(i) =>
      var t := d.tasks[i];
      if Blocked(t.def, d.profile.value.gomaCoins) then Step(d, InsufficientFunds)
      else
        var paid := Paid(d, i, now);
        if UnlocksItem(t.def) then
          Step(paid.(currentTaskToComplete := Some(paid.tasks[i])), AwaitingSelection(t.def.unlocksItemId.value))
        else
          Step(Initialized(paid, cfg, d.user.value), CompletedAndReset)
  }

  /** finalizeCustomization(item, skin): the new record is appended, then the
      re-initialization replaces the whole list by the baseline one. */
  function Customized(d: GameData, cfg: Config, itemId: string, skinId: string): (r: GameData)
    requires WellFormed(d, cfg) && d.currentTaskToComplete.Some?
    ensures r.customization == BaselineCustomization(d.user.value.id)
    ensures itemId != "mesa_principal" ==> forall rec :: rec in r.customization ==> rec.itemId != itemId
    ensures r == Initialized(d, cfg, d.user.value)
  {
    var u := d.user.value;
    var rec := CustomizationRecord(u.id, itemId, d.currentTaskToComplete.value.def.wingId, true, skinId);
    Initialized(d.(customization := d.customization + [rec]), cfg, u)
  }

  // ---------------------------------------------------------------- local snapshot

  /** The fields of a flask body that saveLocalSlimes keeps. */
  function Project(b: FlaskSlime): SavedSlime {
    SavedSlime(b.id, b.level, b.color, b.position)
  }

  /** The projection of saveLocalSlimes over the bodies in the flask, in order. */
  function Snapshot(bodies: seq<FlaskSlime>): (r: seq<SavedSlime>)
    ensures |r| == |bodies|
    ensures forall j :: 0 <= j < |bodies| ==>
      r[j].id == bodies[j].id && r[j].level == bodies[j].level &&
      r[j].color == bodies[j].color && r[j].position == bodies[j].position
  {
    seq(|bodies|, j requires 0 <= j < |bodies| => Project(bodies[j]))
  }

  // ---------------------------------------------------------------- lemmas

  /** A re-initialization forgets everything it resets: two records that agree on
      the flask bodies and the pending task are reset to the same record. */
  lemma InitializedForgets(d1: GameData, d2: GameData, cfg: Config, u: User)
    requires d1.currentSlimes == d2.currentSlimes
    requires d1.currentTaskToComplete == d2.currentTaskToComplete
    ensures Initialized(d1, cfg, u) == Initialized(d2, cfg, u)
  {
  }

  /** Adding a non-negative amount at full energy changes nothing (in particular
      updateEnergy(MAX_ENERGY) at full energy, when the maximum is not negative). */
  lemma EnergyAtMaxStays(d: GameData, cfg: Config, amount: int)
    requires d.profile.Some? && d.profile.value.currentEnergy == cfg.maxEnergy
    requires amount >= 0
    ensures EnergyUpdated(d, cfg, amount) == d
  {
  }

  /** Two star updates in a row are one update by the sum. */
  lemma StarsCompose(d: GameData, a: int, b: int)
    ensures StarsUpdated(StarsUpdated(d, a), b) == StarsUpdated(d, a + b)
  {
  }

  /** The first task with the id costs goma coins beyond the balance: nothing changes. */
  lemma AttemptInsufficientFunds(d: GameData, cfg: Config, id: string, now: Timestamp, i: nat)
    requires WellFormed(d, cfg)
    requires i < |d.tasks| && d.tasks[i].id == id && forall j :: 0 <= j < i ==> d.tasks[j].id != id
    requires d.tasks[i].def.costType == CheckedCostType
    requires d.profile.value.gomaCoins < d.tasks[i].def.costAmount
    ensures TaskAttempted(d, cfg, id, now) == Step(d, InsufficientFunds)
  {
    assert FindTask(d.tasks, id) == Some(i);
  }

  /** The success path of a task that unlocks an item: the balance drops by exactly
      the cost (whatever the cost type, and even if the task was already completed),
      the task alone is flagged, it becomes the pending task, and nothing else changes. */
  lemma AttemptPays(d: GameData, cfg: Config, id: string, now: Timestamp, i: nat)
    requires WellFormed(d, cfg)
    requires i < |d.tasks| && d.tasks[i].id == id && forall j :: 0 <= j < i ==> d.tasks[j].id != id
    requires !Blocked(d.tasks[i].def, d.profile.value.gomaCoins)
    requires UnlocksItem(d.tasks[i].def)
    ensures var r := TaskAttempted(d, cfg, id, now);
      r.outcome == AwaitingSelection(d.tasks[i].def.unlocksItemId.value) &&
      r.data.profile.Some? &&
      r.data.profile.value.gomaCoins == d.profile.value.gomaCoins - d.tasks[i].def.costAmount &&
      r.data.profile.value.(gomaCoins := d.profile.value.gomaCoins) == d.profile.value &&
      r.data.tasks == d.tasks[i := Completed(d.tasks[i], now)] &&
      r.data.currentTaskToComplete == Some(Completed(d.tasks[i], now)) &&
      r.data.(profile := d.profile, tasks := d.tasks, currentTaskToComplete := d.currentTaskToComplete) == d
  {
    assert FindTask(d.tasks, id) == Some(i);
  }

  /** A success whose task unlocks nothing resets the record: the payment and the
      completion flag are discarded with everything else. */
  lemma AttemptResets(d: GameData, cfg: Config, id: string, now: Timestamp, i: nat)
    requires WellFormed(d, cfg)
    requires i < |d.tasks| && d.tasks[i].id == id && forall j :: 0 <= j < i ==> d.tasks[j].id != id
    requires !Blocked(d.tasks[i].def, d.profile.value.gomaCoins)
    requires !UnlocksItem(d.tasks[i].def)
    ensures TaskAttempted(d, cfg, id, now) == Step(Initialized(d, cfg, d.user.value), CompletedAndReset)
  {
    assert FindTask(d.tasks, id) == Some(i);
  }

  /** A goma-coin cost equal to the balance passes the strict check and leaves zero. */
  lemma AttemptExactBalance(d: GameData, cfg: Config, id: string, now: Timestamp, i: nat)
    requires WellFormed(d, cfg)
    requires i < |d.tasks| && d.tasks[i].id == id && forall j :: 0 <= j < i ==> d.tasks[j].id != id
    requires d.tasks[i].def.costType == CheckedCostType
    requires d.profile.value.gomaCoins == d.tasks[i].def.costAmount
    requires UnlocksItem(d.tasks[i].def)
    ensures TaskAttempted(d, cfg, id, now).data.profile.value.gomaCoins == 0
  {
    AttemptPays(d, cfg, id, now, i);
  }

  /** A cost of another type is not checked, so it can drive the balance below zero. */
  lemma AttemptUncheckedCostGoesNegative(d: GameData, cfg: Config, id: string, now: Timestamp, i: nat)
    requires WellFormed(d, cfg)
    requires i < |d.tasks| && d.tasks[i].id == id && forall j :: 0 <= j < i ==> d.tasks[j].id != id
    requires d.tasks[i].def.costType != CheckedCostType
    requires d.profile.value.gomaCoins < d.tasks[i].def.costAmount
    requires UnlocksItem(d.tasks[i].def)
    ensures TaskAttempted(d, cfg, id, now).data.profile.value.gomaCoins < 0
  {
    AttemptPays(d, cfg, id, now, i);
  }

  /** While every task is one of the three mock tasks (which all unlock an item),
      an attempt never takes the reset branch, and the tasks stay mock tasks. */
  lemma {:induction false} AttemptOnMockTasksNeverResets(d: GameData, cfg: Config, id: string, now: Timestamp)
    requires WellFormed(d, cfg)
    requires MockTasksOnly(d)
    ensures var r := TaskAttempted(d, cfg, id, now);
      !r.outcome.CompletedAndReset? && MockTasksOnly(r.data)
  {
    match FindTask(d.tasks, id)
    case None =>
    case Some(i) =>
      assert d.tasks[i].def in BaselineTaskDefs();
  }

  /** Two flask contents save to the same snapshot exactly when they agree, body by
      body, on id, level, colour and position: nothing else is persisted, and
      nothing of those four is lost. */
  lemma SnapshotKeepsExactlyPersistedFields(a: seq<FlaskSlime>, b: seq<FlaskSlime>)
    ensures Snapshot(a) == Snapshot(b) <==>
      |a| == |b| &&
      forall j :: 0 <= j < |a| ==>
        a[j].id == b[j].id && a[j].level == b[j].level &&
        a[j].color == b[j].color && a[j].position == b[j].position
  {
    if |a| == |b| &&
       forall j :: 0 <= j < |a| ==>
         a[j].id == b[j].id && a[j].level == b[j].level &&
         a[j].color == b[j].color && a[j].position == b[j].position
    {
      assert forall j :: 0 <= j < |a| ==> Snapshot(a)[j] == Snapshot(b)[j];
    }
  }

  // ---------------------------------------------------------------- reachable records

  /** One call of an operation of the store on the record. */
  datatype Op =
    | Init(user: User)
    | AddEnergy(energy: int)
    | AddStars(stars: int)
    | Attempt(taskId: string, now: Timestamp)
    | Finalize(itemId: string, skinId: string)

  /** The record after `op`; None where the call would throw (finalizing with no pending task). */
  function Apply(d: GameData, cfg: Config, op: Op): (r: Option<GameData>)
    requires WellFormed(d, cfg)
    ensures r.Some? ==> WellFormed(r.value, cfg)
    ensures r.None? <==> op.Finalize? && d.currentTaskToComplete.None?
  {
    match op
    case Init(u) => Some(Initialized(d, cfg, u))
    case AddEnergy(a) => Some(EnergyUpdated(d, cfg, a))
    case AddStars(a) => Some(StarsUpdated(d, a))
    case Attempt(id, now) => Some(TaskAttempted(d, cfg, id, now).data)
    case Finalize(item, skin) =>
      if d.currentTaskToComplete.Some? then Some(Customized(d, cfg, item, skin)) else None
  }

  /** The record after the calls `ops`, in order, on a freshly loaded module. */
  function Run(cfg: Config, ops: seq<Op>): (r: Option<GameData>)
    ensures r.Some? ==> WellFormed(r.value, cfg)
  {
    if ops == [] then Some(Unloaded())
    else
      match Run(cfg, ops[..|ops| - 1])
      case None => None
      case Some(d) => Apply(d, cfg, ops[|ops| - 1])
  }

  /** Every record the store can reach holds only mock tasks. */
  lemma {:induction false} ReachableHasMockTasks(cfg: Config, ops: seq<Op>)
    requires Run(cfg, ops).Some?
    ensures MockTasksOnly(Run(cfg, ops).value)
  {
    if ops != [] {
      var prefix, op := ops[..|ops| - 1], ops[|ops| - 1];
      ReachableHasMockTasks(cfg, prefix);
      var d := Run(cfg, prefix).value;
      match op
      case Attempt(id, now) => AttemptOnMockTasksNeverResets(d, cfg, id, now);
      case AddEnergy(a) => assert EnergyUpdated(d, cfg, a).tasks == d.tasks;
      case AddStars(a) => assert StarsUpdated(d, a).tasks == d.tasks;
      case Init(u) =>
      case Finalize(item, skin) =>
    }
  }

  /** So on every record the store can reach, completing a task never takes the reset branch. */
  lemma ReachableAttemptNeverResets(cfg: Config, ops: seq<Op>, id: string, now: Timestamp)
    requires Run(cfg, ops).Some?
    ensures !TaskAttempted(Run(cfg, ops).value, cfg, id, now).outcome.CompletedAndReset?
  {
    ReachableHasMockTasks(cfg, ops);
    AttemptOnMockTasksNeverResets(Run(cfg, ops).value, cfg, id, now);
  }
}

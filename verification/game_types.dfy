/**
 The values held by the game-state store of Slimes Lab (js/logic/game_state.js):
 the signed-in user, the profile with its counters, the creature collection,
 customization records, tasks, and the creature bodies currently in the flask.
 */
module GameTypes {

  datatype Option<+T> = None | Some(value: T)

  /** The completion time stamp; the clock is outside the model, so a stamp is any string. */
  type Timestamp = string

  /** The numeric constants imported from config.js, which is not part of this model. */
  datatype Config = Config(maxEnergy: int, diamondsInitial: int, gomaCoinsInitial: int)

  /** A user identity as handed to initializeGameState: id, email and the metadata username (possibly missing). */
  datatype User = User(id: string, email: string, metadataUsername: Option<string>)

  /** The profile record and its four counters. */
  datatype Profile = Profile(
    id: string,
    username: string,
    starCount: int,
    diamondCount: int,
    gomaCoins: int,
    currentEnergy: int)

  /** A collected creature: several entries may share colour and level. */
  datatype Slime = Slime(id: string, color: string, level: int, quantity: int)

  /** One unlocked item of one wing, with the skin equipped on it. */
  datatype CustomizationRecord = CustomizationRecord(
    userId: string,
    itemId: string,
    itemWing: string,
    isUnlocked: bool,
    skinEquipped: string)

  /** The static part of a task: what it costs and what it unlocks. */
  datatype TaskDef = TaskDef(
    name: string,
    description: string,
    wingId: string,
    costType: string,
    costAmount: int,
    unlocksItemId: Option<string>)

  /** A task entry of the store: completed tasks stay in the list, flagged and stamped. */
  datatype Task = Task(id: string, isCompleted: bool, completedAt: Option<Timestamp>, def: TaskDef)

  /** One entry of the wing catalog (LAB_ITEMS_DATA): its key, display name and star threshold. */
  datatype WingData = WingData(key: string, name: string, unlockStars: int)

  /** The state of a wing's page element: still under the fog overlay, or unlocked. */
  datatype WingView = Fogged | Unlocked

  datatype Vec = Vec(x: real, y: real)

  /** A creature body in the flask; velocity and angle stand for the physics state that is not persisted. */
  datatype FlaskSlime = FlaskSlime(id: string, level: int, color: string, position: Vec, velocity: Vec, angle: real)

  /** What saveLocalSlimes keeps of a body. */
  datatype SavedSlime = SavedSlime(id: string, level: int, color: string, position: Vec)

  /** Which way attemptCompleteTask ended. */
  datatype Outcome =
    | NotFound
    | InsufficientFunds
    | AwaitingSelection(itemId: string)
    | CompletedAndReset

  /** The whole gameState record as a value. */
  datatype GameData = GameData(
    user: Option<User>,
    profile: Option<Profile>,
    slimes: seq<Slime>,
    customization: seq<CustomizationRecord>,
    tasks: seq<Task>,
    spawnerCharge: int,
    currentSlimes: seq<FlaskSlime>,
    currentTaskToComplete: Option<Task>)

  /** The result of a task attempt: the new record and the branch taken. */
  datatype Step = Step(data: GameData, outcome: Outcome)
}

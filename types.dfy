// The data the quest engine reads and produces (src/types/index.ts).
// Only the fields the engine looks at are kept; timestamps are left out.

module Types {

  datatype Option<T> = None | Some(value: T)

  /** The five stages of the behaviour-change model, in their fixed order. */
  datatype Stage = Precontemplation | Contemplation | Preparation | Action | Maintenance

  /** The name a stage has in the program (the `ChangeStage` string union). */
  function StageName(s: Stage): (name: string)
    ensures |name| >= 6 && '_' !in name
  {
    match s
    case Precontemplation => "precontemplation"
    case Contemplation => "contemplation"
    case Preparation => "preparation"
    case Action => "action"
    case Maintenance => "maintenance"
  }

  /** The part of a user profile that the engine reads. */
  datatype UserData = UserData(
    triedToGoOut: bool,          // pastExperiences.triedToGoOut
    failReasons: seq<string>,    // pastExperiences.failReasons
    anxietyLevel: int,           // mentalState.anxietyLevel
    selfEfficacy: string,        // mentalState.selfEfficacy
    outingsLastMonth: int,       // hikikomoriStatus.outingsLastMonth
    likes: seq<string>,          // interests.likes
    goals: string,               // interests.goals
    platforms: seq<string>)      // digitalBehavior.platforms

  /** One recommended task; `completedAt` is left out. */
  datatype Quest = Quest(
    id: string,
    title: string,
    unlockCondition: string,
    completionCondition: string,
    reward: string,
    completed: bool)

  /** One generation run as stored in the history. */
  datatype QuestData = QuestData(userId: string, stage: Stage, quests: seq<Quest>)
}

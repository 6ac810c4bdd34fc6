// The stage classifier: QuestGenerator.determineChangeStage and
// QuestGenerator.getStageReason (src/services/questGenerator.ts).

module Classifier {
  import opened Types

  /** The profile has never tried to go out and reports high anxiety. */
  predicate Withdrawn(u: UserData) {
    !u.triedToGoOut && u.anxietyLevel >= 4
  }

  /** The profile tried to go out and names at least one reason it failed. */
  predicate TriedAndFailed(u: UserData) {
    u.triedToGoOut && |u.failReasons| > 0
  }

  /** `selfEfficacy.includes('높') || selfEfficacy.includes('좋')`. */
  predicate HighSelfEfficacy(u: UserData) {
    '높' in u.selfEfficacy || '좋' in u.selfEfficacy
  }

  /** An ordered chain of guards; the first one that holds decides the stage.
      The maintenance guard needs five or more outings, which the action guard
      before it (more than three) has already taken, so the classifier never
      answers Maintenance and self-efficacy never decides anything. */
  function DetermineChangeStage(u: UserData): (stage: Stage)
    ensures stage == Precontemplation <==> Withdrawn(u)
    ensures stage == Contemplation <==> TriedAndFailed(u)
    ensures stage == Action <==> !Withdrawn(u) && !TriedAndFailed(u) && u.outingsLastMonth > 3
    ensures stage == Preparation <==> !Withdrawn(u) && !TriedAndFailed(u) && u.outingsLastMonth <= 3
    ensures stage != Maintenance
  {
    if Withdrawn(u) then Precontemplation
    else if TriedAndFailed(u) then Contemplation
    else if u.outingsLastMonth > 3 then Action
    else if u.outingsLastMonth >= 5 && HighSelfEfficacy(u) then Maintenance
    else Preparation
  }

  /** The self-efficacy text never changes the stage. */
  lemma SelfEfficacyIrrelevant(u: UserData, selfEfficacy: string)
    ensures DetermineChangeStage(u.(selfEfficacy := selfEfficacy)) == DetermineChangeStage(u)
  {
  }

  /** A profile that meets both the action and the maintenance guard is
      classified by the earlier one. */
  lemma RuleOrderExample()
    ensures DetermineChangeStage(UserData(true, [], 2, "높음", 6, [], "", [])) == Action
  {
  }

  /** A withdrawn, anxious profile is in the first stage. */
  lemma WithdrawnExample()
    ensures DetermineChangeStage(UserData(false, [], 5, "", 0, [], "", [])) == Precontemplation
  {
  }

  /** QuestGenerator.getStageReason: one fixed sentence per stage, whatever
      the profile says. */
  function GetStageReason(u: UserData, stage: Stage): (reason: string)
    ensures |reason| > 0
  {
    match stage
    case Precontemplation => "외출 시도 경험이 없고 불안감이 높아 변화에 대한 관심이 낮은 상태입니다."
    case Contemplation => "외출을 시도했지만 실패 경험이 있어 변화의 필요성을 인식하고 있는 상태입니다."
    case Preparation => "최근 소수의 외출 경험이 있어 변화를 위한 준비를 하고 있는 상태입니다."
    case Action => "정기적인 외출이 가능해 실제 행동 변화를 실천하고 있는 상태입니다."
    case Maintenance => "꾸준한 외출과 높은 자기효능감으로 긍정적 변화를 유지하고 있는 상태입니다."
  }

  /** Different stages get different sentences, and the sentence depends on
      the stage alone. */
  lemma StageReasonTable(u: UserData, v: UserData, s: Stage, t: Stage)
    ensures GetStageReason(u, s) == GetStageReason(v, s)
    ensures s != t ==> GetStageReason(u, s) != GetStageReason(u, t)
  {
  }
}

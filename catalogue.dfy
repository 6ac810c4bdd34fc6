// The quest template catalogue: QuestGenerator.getBaseQuestsByStage
// (src/services/questGenerator.ts). Three fixed templates per stage, some of
// whose completion conditions interpolate the profile's first like, first
// platform or goal text.

module Catalogue {
  import opened Types
  import opened Text

  /** A quest before it gets an id and a completion flag. */
  datatype Template = Template(title: string, unlockCondition: string, completionCondition: string, reward: string)

  /** `s || fallback` on a string: the empty string is falsy, so the result
      is `s` whenever it has text, and is empty only when both are. */
  function OrElse(s: string, fallback: string): (r: string)
    ensures r == s || r == fallback
    ensures s != "" ==> r == s
    ensures r == "" <==> s == "" && fallback == ""
  {
    if s != "" then s else fallback
  }

  /** `xs?.[0] || fallback`: the first element, unless the list is empty
      (`undefined`) or its first element is the empty string. A non-empty
      fallback guarantees a non-empty result. */
  function FirstOrElse(xs: seq<string>, fallback: string): (r: string)
    ensures r == fallback || (|xs| > 0 && r == xs[0])
    ensures |xs| > 0 && xs[0] != "" ==> r == xs[0]
    ensures fallback != "" ==> r != ""
  {
    if |xs| > 0 then OrElse(xs[0], fallback) else fallback
  }

  /** The per-stage template table, instantiated for one profile. */
  function Templates(u: UserData, stage: Stage): (ts: seq<Template>)
    ensures |ts| == 3
  {
    match stage
    case Precontemplation => [
      Template("좋아하는 콘텐츠 감상하기", "즉시 시작 가능",
        FirstOrElse(u.likes, "관심 콘텐츠") + " 관련 영상/음악 30분 감상", "성취감 포인트 +10"),
      Template("창문 근처에서 시간 보내기", "첫 번째 퀘스트 완료 후",
        "창문 근처에서 5분간 밖을 바라보며 휴식", "자연광 보너스 +15"),
      Template("온라인 소통 시도하기", "두 번째 퀘스트 완료 후",
        FirstOrElse(u.platforms, "온라인 플랫폼") + "에서 긍정적인 댓글 1개 작성", "소통 경험치 +20")]
    case Contemplation => [
      Template("실내 가벼운 운동하기", "컨디션이 좋은 날",
        "스트레칭이나 간단한 운동 10분 실시", "체력 회복 +15"),
      Template("관심사 탐구하기", "즉시 시작 가능",
        OrElse(u.goals, "관심 있는 활동") + " 관련 정보 1시간 탐색", "지식 경험치 +25"),
      Template("짧은 외출 계획 세우기", "앞선 퀘스트 완료 후",
        "가까운 거리 외출 계획을 구체적으로 작성하기", "계획 수립 보너스 +30")]
    case Preparation => [
      Template("집 앞 짧은 산책", "날씨가 좋은 날",
        "집 앞에서 10분간 신선한 공기 마시기", "체력 회복 +20"),
      Template("필수 용품 구매하기", "컨디션 양호한 날",
        "가까운 편의점이나 마트에서 필요한 물건 구매", "실생활 적응 +35"),
      Template("온라인 친구와 소통하기", "즉시 시작 가능",
        "온라인 친구와 30분 이상 대화하기", "사회성 경험치 +40")]
    case Action => [
      Template("새로운 장소 탐험하기", "컨디션이 좋은 날",
        "평소 가지 않던 근처 장소 1곳 방문하기", "탐험 경험치 +45"),
      Template("취미 활동 실천하기", "즉시 시작 가능",
        FirstOrElse(u.likes, "관심사") + " 관련 실제 활동 2시간 진행", "창작 포인트 +50"),
      Template("카페나 도서관 이용하기", "앞선 퀘스트들 완료 후",
        "공공장소에서 1시간 이상 머물며 활동하기", "사회 적응 +55")]
    case Maintenance => [
      Template("정기적인 외출 루틴 만들기", "매주 실행",
        "일주일에 3회 이상 외출하기", "루틴 마스터 +60"),
      Template("새로운 사람과 대화하기", "사회적 준비 완료 시",
        "모르는 사람과 5분 이상 자연스러운 대화", "사회성 마스터 +70"),
      Template("목표 활동 도전하기", "자신감 충분할 때",
        OrElse(u.goals, "목표 활동") + "에 실제로 도전해보기", "성취 마스터 +100")]
  }

  /** `id` is "quest_", then `name`, then '_', then decimal digits that read
      back as `position`. */
  predicate IdLayout(id: string, name: string, position: nat) {
    && |id| > 7 + |name| && id[..6] == "quest_"
    && id[6..6 + |name|] == name && id[6 + |name|] == '_'
    && AllDigits(id[7 + |name|..]) && ParseDigits(id[7 + |name|..]) == position
  }

  /** `quest_${stage}_${index + 1}`. */
  function QuestId(stage: Stage, position: nat): string {
    "quest_" + StageName(stage) + "_" + NatToString(position)
  }

  /** An id is the prefix "quest_", the stage name, an underscore, and the
      decimal digits that read back as the position. */
  lemma QuestIdLayout(stage: Stage, position: nat)
    ensures IdLayout(QuestId(stage, position), StageName(stage), position)
  {
    var name, digits := StageName(stage), NatToString(position);
    var id := QuestId(stage, position);
    assert id[7 + |name|..] == digits;
    assert id[6..6 + |name|] == name;
  }

  /** QuestGenerator.getBaseQuestsByStage: the stage's three templates, in
      order, each given the id of its 1-based position and not completed. */
  function BaseQuests(u: UserData, stage: Stage): (qs: seq<Quest>)
    ensures |qs| == 3
    ensures forall i :: 0 <= i < 3 ==> qs[i].id == QuestId(stage, i + 1) && !qs[i].completed
    ensures forall i :: 0 <= i < 3 ==>
      var t := Templates(u, stage)[i];
      qs[i].title == t.title && qs[i].unlockCondition == t.unlockCondition
      && qs[i].completionCondition == t.completionCondition && qs[i].reward == t.reward
  {
    var ts := Templates(u, stage);
    seq(|ts|, i requires 0 <= i < |ts| =>
      Quest(QuestId(stage, i + 1), ts[i].title, ts[i].unlockCondition, ts[i].completionCondition, ts[i].reward, false))
  }

  /** Ids never collide: across every stage and every position the id
      determines both. */
  lemma QuestIdsUnique(s: Stage, i: nat, t: Stage, j: nat)
    requires QuestId(s, i) == QuestId(t, j)
    ensures s == t && i == j
  {
    QuestIdLayout(s, i);
    QuestIdLayout(t, j);
    IdPartsDetermine(QuestId(s, i), StageName(s), StageName(t), i, j);
    StageNameInjective(s, t);
  }

  /** An id laid out as "quest_", a name without '_', '_' and digits
      determines the name and the number. */
  lemma IdPartsDetermine(a: string, n: string, m: string, i: nat, j: nat)
    requires '_' !in n && '_' !in m
    requires IdLayout(a, n, i) && IdLayout(a, m, j)
    ensures n == m && i == j
  {
    NameBeforeUnderscore(a, n, m);
  }

  lemma StageNameInjective(s: Stage, t: Stage)
    requires StageName(s) == StageName(t)
    ensures s == t
  {
  }

  /** A name without '_' that starts at position 6 and is followed by '_'
      is determined by the text. */
  lemma NameBeforeUnderscore(a: string, n: string, m: string)
    requires |a| > 6 + |n| && a[6..6 + |n|] == n && a[6 + |n|] == '_' && '_' !in n
    requires |a| > 6 + |m| && a[6..6 + |m|] == m && a[6 + |m|] == '_' && '_' !in m
    ensures n == m
  {
  }

  /** Only the completion conditions depend on the profile: ids, titles,
      unlock conditions and rewards are fixed per stage. */
  lemma CatalogueFixed(u: UserData, v: UserData, stage: Stage, i: nat)
    requires i < 3
    ensures var p, q := BaseQuests(u, stage)[i], BaseQuests(v, stage)[i];
      p.id == q.id && p.title == q.title && p.unlockCondition == q.unlockCondition
      && p.reward == q.reward && p.completed == q.completed
  {
    TemplatesFixed(u, v, stage, i);
  }

  lemma TemplatesFixed(u: UserData, v: UserData, stage: Stage, i: nat)
    requires i < 3
    ensures var t, t' := Templates(u, stage)[i], Templates(v, stage)[i];
      t.title == t'.title && t.unlockCondition == t'.unlockCondition && t.reward == t'.reward
  {
  }

  /** The first stage's titles, whatever the profile. */
  lemma PrecontemplationTitles(u: UserData)
    ensures var qs := BaseQuests(u, Precontemplation);
      && qs[0].title == "좋아하는 콘텐츠 감상하기"
      && qs[1].title == "창문 근처에서 시간 보내기"
      && qs[2].title == "온라인 소통 시도하기"
  {
  }

  /** A profile with no likes gets the placeholder in the first quest. */
  lemma NoLikesPlaceholder(u: UserData)
    requires u.likes == []
    ensures BaseQuests(u, Precontemplation)[0].completionCondition == "관심 콘텐츠 관련 영상/음악 30분 감상"
  {
  }

  /** An empty first platform name counts as none: the placeholder is used. */
  lemma EmptyPlatformPlaceholder(u: UserData)
    requires u.platforms == [""]
    ensures BaseQuests(u, Precontemplation)[2].completionCondition == "온라인 플랫폼에서 긍정적인 댓글 1개 작성"
  {
  }

  /** The id of the first stage's first quest. */
  lemma QuestIdExample()
    ensures QuestId(Precontemplation, 1) == "quest_precontemplation_1"
  {
    assert NatToString(1) == [DigitChar(1)] == "1";
  }
}

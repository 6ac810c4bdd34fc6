// History-based adaptation: QuestGenerator.generateQuests and
// QuestGenerator.adjustQuestsBasedOnHistory (src/services/questGenerator.ts).
//
// The history is read as a sequence of earlier quest sets. A quest "type" is
// the first space-delimited word of its title. The multiplier
// `min(1 + 0.1 * count, 2)` is kept in tenths, so it is exact.

module Adaptation {
  import opened Types
  import opened Text
  import opened Rewrite
  import opened Catalogue

  const EnhancedSuffix: string := " (향상된 버전)"

  // ---------------------------------------------------------------------
  // What the aggregation over the history computes.

  /** Types of the completed quests of one quest set. */
  function SetTokens(qs: seq<Quest>): set<string>
  {
    if qs == [] then {}
    else
      var q := qs[|qs| - 1];
      SetTokens(qs[..|qs| - 1]) + (if q.completed then {FirstWord(q.title)} else {})
  }

  /** Number of completed quests of one quest set. */
  function SetCount(qs: seq<Quest>): (n: nat)
    ensures n <= |qs|
  {
    if qs == [] then 0
    else SetCount(qs[..|qs| - 1]) + (if qs[|qs| - 1].completed then 1 else 0)
  }

  /** The set of quest types ever completed in the history. */
  function CompletedTokens(history: seq<QuestData>): set<string>
  {
    if history == [] then {}
    else CompletedTokens(history[..|history| - 1]) + SetTokens(history[|history| - 1].quests)
  }

  /** The number of quests ever completed in the history: never more than
      the history holds. */
  function CompletedCount(history: seq<QuestData>): (n: nat)
    ensures n <= QuestTotal(history)
  {
    if history == [] then 0
    else CompletedCount(history[..|history| - 1]) + SetCount(history[|history| - 1].quests)
  }

  /** The number of quests in the history. */
  function QuestTotal(history: seq<QuestData>): nat
  {
    if history == [] then 0
    else QuestTotal(history[..|history| - 1]) + |history[|history| - 1].quests|
  }

  /** A quest type is collected exactly when some completed quest of some
      quest set has it as its first title word. */
  lemma {:induction false} SetTokensMembers(qs: seq<Quest>, t: string)
    ensures t in SetTokens(qs) <==>
      (exists j :: 0 <= j < |qs| && qs[j].completed && FirstWord(qs[j].title) == t)
  {
    if qs != [] {
      var init := qs[..|qs| - 1];
      SetTokensMembers(init, t);
      if exists j :: 0 <= j < |qs| && qs[j].completed && FirstWord(qs[j].title) == t {
        var j :| 0 <= j < |qs| && qs[j].completed && FirstWord(qs[j].title) == t;
        if j < |init| {
          assert init[j] == qs[j];
        }
      }
      if t in SetTokens(init) {
        var j :| 0 <= j < |init| && init[j].completed && FirstWord(init[j].title) == t;
        assert qs[j] == init[j];
      }
    }
  }

  lemma {:induction false} CompletedTokensMembers(history: seq<QuestData>, t: string)
    ensures t in CompletedTokens(history) <==>
      (exists i, j :: 0 <= i < |history| && 0 <= j < |history[i].quests|
         && history[i].quests[j].completed && FirstWord(history[i].quests[j].title) == t)
  {
    if history != [] {
      var init, last := history[..|history| - 1], history[|history| - 1];
      CompletedTokensMembers(init, t);
      SetTokensMembers(last.quests, t);
      WitnessSplit(history, t);
    }
  }

  /** A completed quest of a non-empty history lies in its earlier sets or in
      its last one. */
  lemma WitnessSplit(history: seq<QuestData>, t: string)
    requires history != []
    ensures var init, last := history[..|history| - 1], history[|history| - 1];
      (exists i, j :: 0 <= i < |history| && 0 <= j < |history[i].quests|
         && history[i].quests[j].completed && FirstWord(history[i].quests[j].title) == t)
      <==>
      (exists i, j :: 0 <= i < |init| && 0 <= j < |init[i].quests|
         && init[i].quests[j].completed && FirstWord(init[i].quests[j].title) == t)
      || (exists j :: 0 <= j < |last.quests| && last.quests[j].completed && FirstWord(last.quests[j].title) == t)
  {
    var init, last := history[..|history| - 1], history[|history| - 1];
    if (exists i, j :: 0 <= i < |history| && 0 <= j < |history[i].quests|
          && history[i].quests[j].completed && FirstWord(history[i].quests[j].title) == t)
    {
      var i, j :| 0 <= i < |history| && 0 <= j < |history[i].quests|
        && history[i].quests[j].completed && FirstWord(history[i].quests[j].title) == t;
      if i < |init| {
        assert init[i] == history[i];
      }
    }
    if (exists i, j :: 0 <= i < |init| && 0 <= j < |init[i].quests|
          && init[i].quests[j].completed && FirstWord(init[i].quests[j].title) == t)
    {
      var i, j :| 0 <= i < |init| && 0 <= j < |init[i].quests|
        && init[i].quests[j].completed && FirstWord(init[i].quests[j].title) == t;
      assert history[i] == init[i];
    }
  }


  /** Each completed quest adds at most one type, and a set with no completed
      quest adds none. */
  lemma {:induction false} SetTokensBound(qs: seq<Quest>)
    ensures |SetTokens(qs)| <= SetCount(qs)
    ensures SetCount(qs) == 0 <==> SetTokens(qs) == {}
    ensures SetCount(qs) <= |qs|
  {
    if qs != [] {
      SetTokensBound(qs[..|qs| - 1]);
    }
  }

  /** The aggregate respects its two halves: there are never more collected
      types than completed quests, there is a type exactly when some quest was
      completed, and no more quests are completed than the history holds. */
  lemma {:induction false} CompletedTokensBound(history: seq<QuestData>)
    ensures |CompletedTokens(history)| <= CompletedCount(history)
    ensures CompletedCount(history) == 0 <==> CompletedTokens(history) == {}
  {
    if history != [] {
      var init, last := history[..|history| - 1], history[|history| - 1];
      CompletedTokensBound(init);
      SetTokensBound(last.quests);
      var a, b := CompletedTokens(init), SetTokens(last.quests);
      assert |a + b| <= |a| + |b| by {
        assert |a + b| == |a| + |b| - |a * b|;
      }
    }
  }

  /** Aggregating a history split in two is aggregating the halves, so the
      result does not depend on the order of the quest sets. */
  lemma {:induction false} AggregateAppend(h1: seq<QuestData>, h2: seq<QuestData>)
    ensures CompletedTokens(h1 + h2) == CompletedTokens(h1) + CompletedTokens(h2)
    ensures CompletedCount(h1 + h2) == CompletedCount(h1) + CompletedCount(h2)
  {
    if h2 == [] {
      assert h1 + h2 == h1;
    } else {
      var init := h2[..|h2| - 1];
      assert (h1 + h2)[..|h1 + h2| - 1] == h1 + init;
      AggregateAppend(h1, init);
    }
  }

  /** The aggregate does not depend on the order of the quest sets: any
      reordering of the history (newest first, say) gives the same types and
      the same count. */
  lemma {:induction false} AggregateOrderIndependent(h1: seq<QuestData>, h2: seq<QuestData>)
    requires multiset(h1) == multiset(h2)
    ensures CompletedTokens(h1) == CompletedTokens(h2)
    ensures CompletedCount(h1) == CompletedCount(h2)
    decreases |h1|
  {
    if h1 == [] {
      assert |h2| == |multiset(h2)| == 0;
    } else {
      var init, last := h1[..|h1| - 1], h1[|h1| - 1];
      assert h1 == init + [last];
      assert last in multiset(h2);
      var j :| 0 <= j < |h2| && h2[j] == last;
      var before, after := h2[..j], h2[j + 1..];
      assert h2 == before + [last] + after;
      RemoveOne(init, last, before, after);
      AggregateOrderIndependent(init, before + after);
      AggregateAppend(before, after);
      AggregateAppend(before + [last], after);
      AggregateAppend(before, [last]);
      AggregateAppend(init, [last]);
    }
  }

  /** Taking the same element out of two permutations of each other leaves
      permutations of each other. */
  lemma RemoveOne<T>(init: seq<T>, x: T, before: seq<T>, after: seq<T>)
    requires multiset(init + [x]) == multiset(before + [x] + after)
    ensures multiset(init) == multiset(before + after)
  {
    calc {
      multiset(init) + multiset{x};
      multiset(init + [x]);
      multiset(before + [x] + after);
      multiset(before) + multiset{x} + multiset(after);
      multiset(before + after) + multiset{x};
    }
    assert multiset(init) == multiset(init) + multiset{x} - multiset{x};
    assert multiset(before + after) == multiset(before + after) + multiset{x} - multiset{x};
  }

  // ---------------------------------------------------------------------
  // Difficulty and escalation.

  /** `Math.min(1 + count * 0.1, 2)`, in tenths: between 1 and 2, growing by
      0.1 per completed quest and capped at 2 from ten completed quests on. */
  function DifficultyMultiplier(completedCount: nat): (tenths: nat)
    ensures 10 <= tenths <= 20
    ensures completedCount >= 10 ==> tenths == 20
    ensures completedCount <= 10 ==> tenths == 10 + completedCount
  {
    if completedCount < 10 then 10 + completedCount else 20
  }

  /** The escalated version of a quest: same id, unlock condition and
      completion flag and the same quest type; a marked title, a harder
      completion condition and a scaled reward. */
  function Escalate(q: Quest, tenths: nat): (e: Quest)
    ensures e.id == q.id && e.unlockCondition == q.unlockCondition && e.completed == q.completed
    ensures e.title == q.title + EnhancedSuffix && FirstWord(e.title) == FirstWord(q.title)
    ensures e.completionCondition == EnhanceQuestCondition(q.completionCondition)
    ensures e.completionCondition != q.completionCondition
    ensures e.reward == EnhanceReward(q.reward, tenths)
  {
    FirstWordOfExtended(q.title, EnhancedSuffix);
    q.(title := q.title + EnhancedSuffix,
       completionCondition := EnhanceQuestCondition(q.completionCondition),
       reward := EnhanceReward(q.reward, tenths))
  }

  /** The final `map` of adjustQuestsBasedOnHistory: order and length are
      kept, a quest is left as it was exactly when its type was never
      completed, and the others are escalated. */
  function ApplyHistory(base: seq<Quest>, tokens: set<string>, tenths: nat): (r: seq<Quest>)
    ensures |r| == |base|
    ensures forall i :: 0 <= i < |base| ==> (r[i] == base[i] <==> FirstWord(base[i].title) !in tokens)
    ensures forall i :: 0 <= i < |base| && FirstWord(base[i].title) in tokens ==> r[i] == Escalate(base[i], tenths)
  {
    seq(|base|, i requires 0 <= i < |base| =>
      if FirstWord(base[i].title) in tokens then Escalate(base[i], tenths) else base[i])
  }

  /** What adjustQuestsBasedOnHistory returns. */
  function AdjustedQuests(base: seq<Quest>, history: seq<QuestData>): seq<Quest>
  {
    ApplyHistory(base, CompletedTokens(history), DifficultyMultiplier(CompletedCount(history)))
  }

  /** QuestGenerator.adjustQuestsBasedOnHistory: scan every quest of every
      earlier set, collect the types of the completed ones and count them,
      then escalate the base quests whose type was collected. */
  method AdjustQuestsBasedOnHistory(base: seq<Quest>, history: seq<QuestData>) returns (quests: seq<Quest>)
    ensures quests == AdjustedQuests(base, history)
  {
    var completedTypes: set<string> := {};
    var totalCompleted: nat := 0;
    for i := 0 to |history|
      invariant completedTypes == CompletedTokens(history[..i])
      invariant totalCompleted == CompletedCount(history[..i])
    {
      var questSet := history[i].quests;
      for j := 0 to |questSet|
        invariant completedTypes == CompletedTokens(history[..i]) + SetTokens(questSet[..j])
        invariant totalCompleted == CompletedCount(history[..i]) + SetCount(questSet[..j])
      {
        var quest := questSet[j];
        if quest.completed {
          completedTypes := completedTypes + {FirstWord(quest.title)};
          totalCompleted := totalCompleted + 1;
        }
        assert questSet[..j + 1][..j] == questSet[..j];
      }
      assert questSet[..|questSet|] == questSet;
      assert history[..i + 1][..i] == history[..i];
    }
    assert history[..|history|] == history;
    var multiplier := DifficultyMultiplier(totalCompleted);
    quests := ApplyHistory(base, completedTypes, multiplier);
  }

  // ---------------------------------------------------------------------
  // Generation.

  /** What generateQuests returns: the base quests, adjusted when an earlier
      quest set exists. */
  function GeneratedQuests(u: UserData, stage: Stage, previous: Option<seq<QuestData>>): seq<Quest>
  {
    var base := BaseQuests(u, stage);
    if previous.Some? && |previous.value| > 0 then AdjustedQuests(base, previous.value) else base
  }

  /** QuestGenerator.generateQuests. Whatever the history, three quests come
      back, with the stage's ids, none completed. */
  method GenerateQuests(u: UserData, stage: Stage, previous: Option<seq<QuestData>>) returns (quests: seq<Quest>)
    ensures quests == GeneratedQuests(u, stage, previous)
    ensures |quests| == 3
    ensures forall i :: 0 <= i < 3 ==> quests[i].id == QuestId(stage, i + 1) && !quests[i].completed
  {
    var base := BaseQuests(u, stage);
    if previous.Some? && |previous.value| > 0 {
      quests := AdjustQuestsBasedOnHistory(base, previous.value);
    } else {
      quests := base;
    }
  }

  /** Every generated quest is its base quest, or that quest escalated: the
      id, unlock condition and quest type stay, and the title either stays or
      gains the fixed suffix. */
  lemma GeneratedShape(u: UserData, stage: Stage, previous: Option<seq<QuestData>>, i: nat)
    requires i < 3
    ensures var qs, base := GeneratedQuests(u, stage, previous), BaseQuests(u, stage);
      |qs| == 3 && qs[i].id == QuestId(stage, i + 1) && !qs[i].completed
      && qs[i].unlockCondition == base[i].unlockCondition
      && FirstWord(qs[i].title) == FirstWord(base[i].title)
      && (qs[i].title == base[i].title || qs[i].title == base[i].title + EnhancedSuffix)
  {
    if previous.Some? && |previous.value| > 0 {
      AdjustedShape(BaseQuests(u, stage), previous.value, i);
    }
  }

  /** Adjusting keeps each quest's id, unlock condition, completion flag and
      type, and either keeps its title or appends the suffix. */
  lemma AdjustedShape(base: seq<Quest>, history: seq<QuestData>, i: nat)
    requires i < |base|
    ensures var qs := AdjustedQuests(base, history);
      |qs| == |base| && qs[i].id == base[i].id && qs[i].completed == base[i].completed
      && qs[i].unlockCondition == base[i].unlockCondition
      && FirstWord(qs[i].title) == FirstWord(base[i].title)
      && (qs[i].title == base[i].title || qs[i].title == base[i].title + EnhancedSuffix)
  {
    var tokens := CompletedTokens(history);
    var tenths := DifficultyMultiplier(CompletedCount(history));
    var qs := ApplyHistory(base, tokens, tenths);
    if FirstWord(base[i].title) in tokens {
      assert qs[i] == Escalate(base[i], tenths);
    } else {
      assert qs[i] == base[i];
    }
  }

  /** Without history, or with a history in which nothing was completed, the
      base quests come back unchanged. */
  lemma GeneratedWithoutProgress(u: UserData, stage: Stage, previous: Option<seq<QuestData>>)
    requires previous.None? || CompletedCount(previous.value) == 0
    ensures GeneratedQuests(u, stage, previous) == BaseQuests(u, stage)
  {
    if previous.Some? && |previous.value| > 0 {
      CompletedTokensBound(previous.value);
      var base := BaseQuests(u, stage);
      var qs := GeneratedQuests(u, stage, previous);
      assert forall i :: 0 <= i < 3 ==> qs[i] == base[i];
    }
  }

  // ---------------------------------------------------------------------
  // A worked example: one earlier set in which the first quest was done.

  lemma TitleWordText()
    ensures FirstWord("좋아하는 콘텐츠 감상하기") == "좋아하는"
  {
    assert "좋아하는 콘텐츠 감상하기" == "좋아하는" + " 콘텐츠 감상하기";
    FirstWordOfExtended("좋아하는", " 콘텐츠 감상하기");
    assert FirstWord("좋아하는") == "좋아하는";
  }

  lemma ConditionText()
    ensures NoDigits("관심 콘텐츠 관련 영상/음악 ") && NoDigits(" 감상")
    ensures "관심 콘텐츠 관련 영상/음악 30분 감상" == "관심 콘텐츠 관련 영상/음악 " + "30" + [MinuteMark] + " 감상"
    ensures "관심 콘텐츠 관련 영상/음악 45분 감상" == "관심 콘텐츠 관련 영상/음악 " + "45" + [MinuteMark] + " 감상"
  {
  }

  lemma HistoryExampleAggregate(history: seq<QuestData>)
    requires history == [QuestData("user", Precontemplation,
      [Quest("quest_precontemplation_1", "좋아하는 콘텐츠 감상하기", "즉시 시작 가능", "", "", true)])]
    ensures CompletedTokens(history) == {"좋아하는"} && CompletedCount(history) == 1
  {
    TitleWordText();
    var set1 := history[0].quests;
    assert set1[..0] == [];
    assert history[..0] == [];
  }

  lemma HistoryExampleBaseText(u: UserData)
    requires u.likes == []
    ensures var base := BaseQuests(u, Precontemplation);
      && base[0].title == "좋아하는 콘텐츠 감상하기"
      && base[0].completionCondition == "관심 콘텐츠 관련 영상/음악 30분 감상"
      && base[0].reward == "성취감 포인트 +10"
  {
  }

  lemma HistoryExampleBase(u: UserData)
    requires u.likes == []
    ensures var base := BaseQuests(u, Precontemplation);
      && FirstWord(base[0].title) == "좋아하는"
      && FirstWord(base[1].title) != "좋아하는"
      && FirstWord(base[2].title) != "좋아하는"
  {
    HistoryExampleBaseText(u);
    TitleWordText();
    var base := BaseQuests(u, Precontemplation);
    assert FirstWord(base[1].title)[0] == '창';
    assert FirstWord(base[2].title)[0] == '온';
  }

  lemma ThirtyMinutesScaled()
    ensures NatToString(CeilThreeHalves(ParseDigits("30"))) == "45"
  {
    assert ParseDigits("30") == 30;
    assert NatToString(45) == "45";
  }

  /** The first quest escalated by 1.1: 30 minutes become 45, +10 becomes +11. */
  lemma EscalateExample(q: Quest)
    requires q.title == "좋아하는 콘텐츠 감상하기"
    requires q.completionCondition == "관심 콘텐츠 관련 영상/음악 30분 감상"
    requires q.reward == "성취감 포인트 +10"
    ensures var e := Escalate(q, 11);
      && e.title == "좋아하는 콘텐츠 감상하기 (향상된 버전)"
      && e.completionCondition == "관심 콘텐츠 관련 영상/음악 45분 감상"
      && e.reward == "성취감 포인트 +11"
  {
    EscalatedTitleText();
    EscalatedConditionExample(q.completionCondition);
    EscalatedRewardExample(q.reward);
  }

  lemma EscalatedTitleText()
    ensures "좋아하는 콘텐츠 감상하기" + EnhancedSuffix == "좋아하는 콘텐츠 감상하기 (향상된 버전)"
  {
  }

  lemma EscalatedRewardExample(r: string)
    requires r == "성취감 포인트 +10"
    ensures EnhanceReward(r, 11) == "성취감 포인트 +11"
  {
    RewardExample(r, 11);
    ElevenText();
  }

  lemma ElevenText()
    ensures NatToString(11) == "11"
  {
    assert NatToString(1) == "1";
  }

  lemma EscalatedConditionExample(c: string)
    requires c == "관심 콘텐츠 관련 영상/음악 30분 감상"
    ensures EnhanceQuestCondition(c) == "관심 콘텐츠 관련 영상/음악 45분 감상"
  {
    ConditionText();
    ThirtyMinutesScaled();
    MinutesOneValue("관심 콘텐츠 관련 영상/음악 ", "30", "45", " 감상");
  }

  /** After one earlier set in which "좋아하는 …" was completed, the first
      quest of a profile without likes comes back escalated by 1.1 and the
      other two are the base quests. */
  lemma HistoryExample(u: UserData, history: seq<QuestData>)
    requires u.likes == []
    requires history == [QuestData("user", Precontemplation,
      [Quest("quest_precontemplation_1", "좋아하는 콘텐츠 감상하기", "즉시 시작 가능", "", "", true)])]
    ensures var qs, base := GeneratedQuests(u, Precontemplation, Some(history)), BaseQuests(u, Precontemplation);
      && qs[0] == Escalate(base[0], 11)
      && qs[0].completionCondition == "관심 콘텐츠 관련 영상/음악 45분 감상"
      && qs[0].reward == "성취감 포인트 +11"
      && qs[1] == base[1] && qs[2] == base[2]
  {
    HistoryExampleAggregate(history);
    HistoryExampleBase(u);
    var base := BaseQuests(u, Precontemplation);
    HistoryExampleBaseText(u);
    EscalateExample(base[0]);
  }
}

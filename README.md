# Quest engine model

A Dafny model of the rule-based quest engine of the miru app
(`src/services/questGenerator.ts`). From a user's profile, the engine:

- classifies the profile into one of five behaviour-change stages (the
  transtheoretical model: precontemplation, contemplation, preparation,
  action, maintenance);
- explains the stage with a fixed sentence;
- hands out the stage's three quests;
- escalates any of them whose kind the user already completed in an earlier
  quest set.

An escalated quest gets a marked title, longer durations and larger rewards.

The source is a class of static methods with no state, so the model has no
class. It uses one module per part of the engine:

| file | module | source |
|---|---|---|
| `types.dfy` | `Types` | the profile, quest and quest-set records, and the stage enumeration |
| `text.dfy` | `Text` | the JavaScript string pieces the engine relies on: `\d`, `parseInt` of a digit run, `${n}`, `split(' ')[0]` |
| `rewrite.dfy` | `Rewrite` | `enhanceQuestCondition` and `enhanceReward`, as recursive scans equivalent to their global regular-expression `replace` |
| `classifier.dfy` | `Classifier` | `determineChangeStage`, `getStageReason` |
| `catalogue.dfy` | `Catalogue` | `getBaseQuestsByStage` |
| `adaptation.dfy` | `Adaptation` | `generateQuests`, `adjustQuestsBasedOnHistory` |

`adjustQuestsBasedOnHistory` collects its history with nested loops into a
mutable set and a counter. It is therefore a method with two `for` loops.
The method is proved equal to the recursive aggregate functions
`CompletedTokens` and `CompletedCount`, and the properties of those
functions are proved as lemmas. `generateQuests` is a method that calls it.
Everything else in the engine is an expression and is modelled as functions.

The difficulty multiplier `min(1 + 0.1·count, 2)` is kept as a whole number
of tenths (10 to 20). `Math.ceil(n * 1.5)` is `(3n + 1) / 2`, and
`Math.ceil(n * m)` is `(n·tenths + 9) / 10`, both on unbounded naturals.

Two behaviours of the code are easy to misread:

- **The intensifier.** The code appends " (더 적극적으로)" whenever the
  minute rewrite changed nothing. That happens when there is no `N분`, and
  also when every such value is written "0".
- **Maintenance is unreachable.** The source's comments call the action rule
  "three or more outings", but the code tests `> 3`. The maintenance rule
  (`>= 5`) comes after it, so maintenance is unreachable. The model keeps
  that rule in place and proves it can never fire.

The user data passed to `adjustQuestsBasedOnHistory` is never read there,
so the model does not pass it.

## Model

| member | source | states |
|---|---|---|
| Types.StageName | src/types/index.ts:71 | each stage's string name has at least six characters and no '_', so the stage part of a quest id is delimited |
| Text.NatToString | src/services/questGenerator.ts:219-220 | the decimal rendering of a number is a non-empty digit string that parses back to the number; its first digit is 0 exactly for 0 |
| Text.ParseDigitsZero | src/services/questGenerator.ts:219 | `parseInt` of a digit run is 0 exactly when every digit is '0' |
| Text.ParseDigitsRoundTrip | src/services/questGenerator.ts:219-220 | rendering a parsed digit run gives the run back whenever it has no leading zero |
| Text.DigitPrefixLength | src/services/questGenerator.ts:217 | `\d+` is maximal: the prefix is all digits, the next character is not a digit, and a leading digit gives a run of length at least 1 |
| Text.FirstWord | src/services/questGenerator.ts:190 | `split(' ')[0]` is a prefix of the title with no space, followed by a space or by the end of the title |
| Text.FirstWordOfExtended | src/services/questGenerator.ts:201-205 | appending a space-led suffix such as " (향상된 버전)" keeps the first word, so an escalated quest keeps its type |
| Rewrite.CeilThreeHalves | src/services/questGenerator.ts:219 | the result is the ceiling of 1.5·n: 2r lies in [3n, 3n+2); it is at least n and equals n only for 0 |
| Rewrite.ScalePoints | src/services/questGenerator.ts:230 | the result is the ceiling of n·tenths/10: 10r lies in [n·tenths, n·tenths+10); a multiplier of at least 1 never lowers the value |
| Rewrite.EnhanceQuestCondition | src/services/questGenerator.ts:216-224 | the escalated condition always differs from the original, and is either the minute rewrite or the original plus " (더 적극적으로)" |
| Rewrite.MinutesCopyDigitFree | src/services/questGenerator.ts:217-221 | text without digits passes through the minute rewrite unchanged, and the rewrite of the rest follows it |
| Rewrite.MinutesScaleRun | src/services/questGenerator.ts:217-221 | a digit run N directly followed by '분' becomes ceil(1.5·N) followed by '분'; the rest is rewritten on its own |
| Rewrite.MinutesCopyOtherRun | src/services/questGenerator.ts:217 | a digit run not followed by '분' is copied unchanged |
| Rewrite.MinutesKeepsNonDigits | src/services/questGenerator.ts:217-221 | the minute rewrite changes only digits: with all digits removed, the rewritten condition equals the original |
| Rewrite.MinutesOneValue | src/services/questGenerator.ts:217-221 | inside digit-free text, a single minute value N is replaced by ceil(1.5·N) and nothing else changes |
| Rewrite.MinutesFixpoint | src/services/questGenerator.ts:218-223 | the minute rewrite leaves a condition unchanged exactly when every maximal digit run followed by '분' is the single digit 0 |
| Rewrite.EnhanceQuestConditionCases | src/services/questGenerator.ts:223 | the intensifier is appended exactly when every minute value is "0" (so always when there is none); otherwise the rewritten text is returned; a condition either has a digit before '분' or all its minute values are "0" |
| Rewrite.PointsCopyPlusFree | src/services/questGenerator.ts:228-232 | text without '+' passes through the reward rewrite unchanged |
| Rewrite.PointsScaleRun | src/services/questGenerator.ts:228-232 | '+' followed by a maximal digit run N becomes '+' followed by ceil(N·multiplier) |
| Rewrite.PointsLonePlus | src/services/questGenerator.ts:228 | a '+' not followed by a digit is copied, and the rest of the reward is rewritten on its own |
| Rewrite.PointsKeepsNonDigits | src/services/questGenerator.ts:228-232 | the reward rewrite changes only digits: with all digits removed, the rewritten reward equals the original |
| Rewrite.PointsUnchangedWithoutValue | src/services/questGenerator.ts:228-232 | a reward with no '+' directly followed by a digit is returned unchanged |
| Rewrite.EnhanceReward | src/services/questGenerator.ts:227-233 | a reward with no '+' directly followed by a digit comes back unchanged, whatever the multiplier |
| Rewrite.TenMinutesExample | src/services/questGenerator.ts:216-224 | "집 앞에서 10분간 신선한 공기 마시기" escalates to "집 앞에서 15분간 신선한 공기 마시기" |
| Rewrite.FiveMinutesExample | src/services/questGenerator.ts:216-224 | "창문 근처에서 5분간 …" escalates to 8 minutes (ceil of 7.5) |
| Rewrite.SevenMinutesExample | src/services/questGenerator.ts:216-224 | "7분" escalates to "11분" (ceil of 10.5) |
| Rewrite.NoMinutesExample | src/services/questGenerator.ts:223 | a condition without a minute value gets " (더 적극적으로)" appended |
| Rewrite.ZeroMinutesExample | src/services/questGenerator.ts:223 | "0분 휴식" is unchanged by the rewrite, so it gets the intensifier too |
| Rewrite.RewardExample | src/services/questGenerator.ts:227-233 | "성취감 포인트 +10" becomes "+11" under the multiplier 1.1 and "+20" under 2 |
| Classifier.DetermineChangeStage | src/services/questGenerator.ts:6-32 | first match wins. Precontemplation exactly when the profile never tried to go out and its anxiety is at least 4. Contemplation exactly when it tried and names a failure reason. Action exactly when neither holds and there were more than 3 outings. Preparation exactly when neither holds and there were at most 3. Never maintenance |
| Classifier.SelfEfficacyIrrelevant | src/services/questGenerator.ts:24-28 | the self-efficacy text never changes the stage |
| Classifier.RuleOrderExample | src/services/questGenerator.ts:20-28 | 6 outings with self-efficacy "높음" gives action, not maintenance |
| Classifier.WithdrawnExample | src/services/questGenerator.ts:9-12 | no outing attempt and anxiety 5 gives precontemplation |
| Classifier.GetStageReason | src/services/questGenerator.ts:35-45 | every stage has a non-empty explanation |
| Classifier.StageReasonTable | src/services/questGenerator.ts:36-44 | the sentence depends on the stage alone, and different stages get different sentences |
| Catalogue.Templates | src/services/questGenerator.ts:67-168 | every stage has exactly three templates |
| Catalogue.OrElse | src/services/questGenerator.ts:98 | `goals || fallback`: the goal text when it is non-empty, else the fallback; the result is empty only when both are |
| Catalogue.FirstOrElse | src/services/questGenerator.ts:72 | `list?.[0] || fallback`: the first element when the list has a non-empty one, else the fallback, so a non-empty fallback never yields an empty text |
| Catalogue.BaseQuests | src/services/questGenerator.ts:170-174 | exactly three quests, in template order, with the 1-based position in the id, none completed, and title, conditions and reward taken from the template |
| Catalogue.QuestIdsUnique | src/services/questGenerator.ts:171 | ids never collide: for every pair of stages and positions, an id determines both its stage and its position |
| Catalogue.QuestIdLayout | src/services/questGenerator.ts:171 | an id is "quest_", the stage name, '_' and the decimal digits of the position, which read back as the position |
| Catalogue.QuestIdExample | src/services/questGenerator.ts:171 | the first quest of the first stage is "quest_precontemplation_1" |
| Catalogue.CatalogueFixed | src/services/questGenerator.ts:67-168 | only completion conditions depend on the profile; id, title, unlock condition, reward and completion flag are fixed per stage and position |
| Catalogue.PrecontemplationTitles | src/services/questGenerator.ts:68-87 | the first stage's titles are "좋아하는 콘텐츠 감상하기", "창문 근처에서 시간 보내기" and "온라인 소통 시도하기" |
| Catalogue.NoLikesPlaceholder | src/services/questGenerator.ts:72 | with no likes, the first quest's condition uses the placeholder "관심 콘텐츠" |
| Catalogue.EmptyPlatformPlaceholder | src/services/questGenerator.ts:84 | an empty first platform name counts as missing, so the placeholder "온라인 플랫폼" is used |
| Adaptation.SetTokensMembers | src/services/questGenerator.ts:188-192 | a word is collected from one quest set exactly when some completed quest of it has that first title word |
| Adaptation.SetCount | src/services/questGenerator.ts:188-192 | one quest set adds at most as many completed quests as it holds |
| Adaptation.CompletedCount | src/services/questGenerator.ts:183-194 | the counter never exceeds the number of quests in the history |
| Adaptation.CompletedTokensMembers | src/services/questGenerator.ts:183-194 | a word is collected from the history exactly when some completed quest of some earlier set has that first title word |
| Adaptation.SetTokensBound | src/services/questGenerator.ts:188-192 | one quest set yields no more words than completed quests, and no more completed quests than quests; it yields a word exactly when something was completed |
| Adaptation.CompletedTokensBound | src/services/questGenerator.ts:183-194 | the history yields no more words than completed quests, and yields a word exactly when the counter is non-zero |
| Adaptation.AggregateAppend | src/services/questGenerator.ts:187-194 | aggregating a history split in two is the union of the word sets and the sum of the counts |
| Adaptation.AggregateOrderIndependent | src/services/questGenerator.ts:187-194 | any reordering of the quest sets (the same multiset of sets) gives the same words and the same count |
| Adaptation.DifficultyMultiplier | src/services/questGenerator.ts:197 | the multiplier lies between 1 and 2, is 1 + 0.1·count up to ten completed quests, and is exactly 2 from ten on |
| Adaptation.Escalate | src/services/questGenerator.ts:203-208 | an escalated quest keeps its id, unlock condition, completion flag and type. It gains " (향상된 버전)" in the title, its completion condition is rewritten by EnhanceQuestCondition (so it changes). Its reward is scaled by the multiplier |
| Adaptation.ApplyHistory | src/services/questGenerator.ts:199-212 | length and order are kept. A quest is returned unchanged exactly when its first title word was never completed. Every other quest is its escalation |
| Adaptation.AdjustQuestsBasedOnHistory | src/services/questGenerator.ts:178-213 | the nested loops compute exactly the word set and the count of completed quests over the whole history, and the result is the base quests adjusted with them |
| Adaptation.GenerateQuests | src/services/questGenerator.ts:48-61 | three quests with the stage's ids, none completed: the base quests when there is no earlier quest set, otherwise the base quests adjusted with the history |
| Adaptation.GeneratedShape | src/services/questGenerator.ts:48-61 | each generated quest keeps its base quest's id, unlock condition and type, and its title either stays or gains the suffix |
| Adaptation.AdjustedShape | src/services/questGenerator.ts:199-212 | adjusting keeps the length, and each quest's id, completion flag, unlock condition and type; its title stays or gains " (향상된 버전)" |
| Adaptation.GeneratedWithoutProgress | src/services/questGenerator.ts:53-60 | with no history, or a history in which nothing was completed, the base quests come back unchanged |
| Adaptation.EscalateExample | src/services/questGenerator.ts:203-208 | the first quest of the first stage, escalated under 1.1, reads "… (향상된 버전)", "관심 콘텐츠 관련 영상/음악 45분 감상", "성취감 포인트 +11" |
| Adaptation.EscalatedConditionExample | src/services/questGenerator.ts:216-224 | "관심 콘텐츠 관련 영상/음악 30분 감상" escalates to 45 minutes |
| Adaptation.HistoryExample | src/services/questGenerator.ts:178-213 | one completed "좋아하는 콘텐츠 감상하기" in the history escalates the new first quest under 1.1 and leaves the other two unchanged |

## Left out

- ScalePoints: computes the exact ceiling of N·tenths/10. The source multiplies by an IEEE double. With one completed quest, `50 * 1.1` is 55.00000000000001 in double arithmetic, so `Math.ceil` gives +56 where the model gives +55. Likewise `1 + 7 * 0.1` is 1.7000000000000002, giving +52 for +30 where the model gives +51. For +10 under 1.1 the two agree.
- DifficultyMultiplier: is the exact rational (10 + min(count, 10)) / 10. The source's `1 + count * 0.1` carries double rounding, for example 1.7000000000000002 for count 7.
- Text.NatToString: renders every natural in plain decimal. `parseInt` and `${n}` lose precision beyond 2^53, and switch to exponent notation from 10^21 on. Values that large are not modelled.
- Profile fields that the engine does not read are left out: name, age, residence, health, motivators and the like. So are the optional ids, user names and `completedAt`/`createdAt`/`updatedAt` timestamps of quests and quest sets, which the engine never reads or writes.
- `previousQuests` being `undefined` is `None`, and an empty array is `Some([])`; both give the base quests.
- Strings are sequences of Unicode scalar values (Dafny's `char`), where JavaScript uses UTF-16 code units. The engine only compares characters with ' ', '+', '분' and ASCII digits, none of which is a surrogate, so the results agree. A lone surrogate cannot be represented and is not modelled.
- The React pages, the OpenAI client, the Firestore API, the utilities (id generation from clocks and randomness, JSON extraction) and the styles are not part of this model. They are user interface, network I/O and persistence around the engine.

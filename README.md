# QA report scoring and editing, modelled in Dafny

This project models the logic core of a website-QA report tool. A reviewer ticks items of a checklist (categories, then sections, then items) and records issues in four priority tiers (critical, high, medium, low). From those, the tool derives:

- an overall rating (excellent, good, fair or poor) from the number of unchecked items and the number of critical issues;
- a completion percentage;
- a listing of the unchecked items, grouped by section;
- a badge colour and an explanation sentence per rating;
- an ordered list of recommended next steps.

The model also covers the two editing surfaces that feed the engine. A checklist section card toggles an item's tick, which recomputes the section's cached `completed` flag, and replaces the section's issue notes. A priority-summary editor sets, appends and splices out entries of one tier in place.

Modules, one per source file, plus two shared helper modules (`Decimal` and `ChecklistItems`):

- `Types` mirrors the record shapes of `types/index.ts`.
- `Decimal` renders a count as the decimal numeral that a template literal interpolates, and states what it means for a text to contain a piece.
- `ChecklistItems` holds the flattened, ordered view of a checklist and its counts. The rating engine and the section card share it.
- `RatingCalculator` is `lib/utils/rating-calculator.ts`. Its three loop-based functions are methods with nested loops, proved against the specification functions (`UncheckedCount`, `UncheckedGroups`, `Progress`). The rating, colour and explanation are functions.
- `NextStepsGenerator` is `lib/utils/next-steps-generator.ts`. Each recommendation is a `Step` value rendered to its text by `Message`. The method builds the texts by guarded pushes. Its result renders `NextStepPlan`, which keeps each candidate step that its own rule wants, in a fixed phase order. Lemmas prove that the plan is the only phase-ordered sequence of exactly the wanted steps, and that the texts determine the steps, so every property of the plan carries over to the texts.
- `ChecklistSectionUpdate` is the update logic of `components/qa/checklist-section.tsx`. It is pure: each update returns a new section.
- `PrioritySummaryEditor` is the tier editing of `components/qa/priority-summary.tsx`. The `Editor` class holds the four tiers as fields, and its methods change one tier in place and leave the others alone.

## Model

| member | source | states |
|---|---|---|
| ChecklistItems.CountWhere | lib/utils/rating-calculator.ts:21 | the number of items with a given tick state never exceeds the number of items |
| ChecklistItems.CountWhereAll | lib/utils/rating-calculator.ts:60 | the count of items in a state equals the length exactly when every item is in that state |
| ChecklistItems.UncheckedPlusCheckedIsTotal | lib/utils/rating-calculator.ts:57-62 | unchecked count plus checked count is the total item count of a checklist |
| ChecklistItems.CountWhereUpdate | lib/utils/rating-calculator.ts:21 | replacing one item moves the count by the difference of the old and new item's tick state |
| ChecklistItems.ReplaceInSectionsCount | lib/utils/rating-calculator.ts:19-24 | replacing one section of a category moves the category's count by the difference of the two sections' counts |
| ChecklistItems.ReplaceInChecklistCount | lib/utils/rating-calculator.ts:18-25 | replacing one category moves the checklist's count by the difference of the two categories' counts |
| Decimal.NatToString | lib/utils/next-steps-generator.ts:12 | the numeral of a count is non-empty, all digits, ends in the last decimal digit, and is one digit exactly below ten |
| Decimal.NatToStringInjective | lib/utils/next-steps-generator.ts:12 | distinct counts give distinct numerals |
| Decimal.ValueOfNatToString | lib/utils/next-steps-generator.ts:12 | the numeral denotes the count: its digits read back give the count, and only the numeral of zero begins with 0 |
| RatingCalculator.RatingFor | lib/utils/rating-calculator.ts:10-13 | each tier as an if-and-only-if of the counts: excellent iff none unchecked and no critical; good iff 1 to 3 unchecked and no critical; fair iff neither of those and at most 10 unchecked and at most 2 critical; poor iff over 10 unchecked or over 2 critical |
| RatingCalculator.OverallRating | lib/utils/rating-calculator.ts:3-14 | the rating of a checklist and its summary is excellent exactly when nothing is unchecked and the critical tier is empty, and poor exactly when over 10 items are unchecked or over 2 issues are critical |
| RatingCalculator.RatingMonotone | lib/utils/rating-calculator.ts:10-13 | more unchecked items or more critical issues never give a better tier |
| RatingCalculator.EmptyChecklistIsExcellent | lib/utils/rating-calculator.ts:7-13 | an empty checklist with no critical issue rates excellent |
| RatingCalculator.AddingCriticalIssueNeverImproves | lib/utils/rating-calculator.ts:8-13 | appending a critical issue never improves the overall rating |
| RatingCalculator.ReplaceSectionCount | lib/utils/rating-calculator.ts:16-26 | replacing one section changes the unchecked count by exactly the difference of the two sections' unchecked counts |
| RatingCalculator.MoreUncheckedNeverImproves | lib/utils/rating-calculator.ts:7-13 | replacing a section by one with at least as many unchecked items never improves the overall rating |
| RatingCalculator.CountUncheckedItems | lib/utils/rating-calculator.ts:16-26 | the nested loops return the number of unchecked items of the flattened checklist |
| RatingCalculator.CalculateOverallRating | lib/utils/rating-calculator.ts:3-14 | the result is the rating of the unchecked count and the critical count, and it is excellent exactly when nothing is unchecked and the critical tier is empty |
| RatingCalculator.UncheckedTexts | lib/utils/rating-calculator.ts:38-43 | one text per unchecked item of a section; a text is listed exactly when some unchecked item carries it |
| RatingCalculator.UncheckedTextsOne | lib/utils/rating-calculator.ts:38-43 | a single item contributes its text when unchecked and nothing when checked |
| RatingCalculator.UncheckedTextsAppend | lib/utils/rating-calculator.ts:38-43 | the texts keep the items' order: the texts of two runs of items joined are the two lists of texts joined |
| RatingCalculator.GetUncheckedItems | lib/utils/rating-calculator.ts:28-51 | the nested loops return the section-by-section listing of unchecked texts, in category and section order, skipping sections with nothing unchecked |
| RatingCalculator.UncheckedGroups | lib/utils/rating-calculator.ts:36-48 | every entry of the listing names a category of the checklist |
| RatingCalculator.SectionGroupsCategory | lib/utils/rating-calculator.ts:40-41 | every entry made for one category's sections carries that category's name |
| RatingCalculator.PushSectionGroups | lib/utils/rating-calculator.ts:37-47 | the inner loop over one category's sections appends exactly that category's listing entries, in section order |
| RatingCalculator.GroupedItemsMatchUncheckedCount | lib/utils/rating-calculator.ts:36-48 | the texts in the listing add up to the unchecked count |
| RatingCalculator.GroupsAreNonEmpty | lib/utils/rating-calculator.ts:39-46 | no entry of the listing has an empty item list |
| RatingCalculator.NoGroupsIffAllChecked | lib/utils/rating-calculator.ts:36-48 | the listing is empty exactly when no item is unchecked |
| RatingCalculator.UncheckedGroupsAppend | lib/utils/rating-calculator.ts:36-48 | the listing follows checklist order: the listing of two checklists joined is the two listings joined |
| RatingCalculator.RoundedPercent | lib/utils/rating-calculator.ts:64 | the result is 100·part/whole rounded to the nearest integer with halves up, stated as an inequality, and is at most 100 |
| RatingCalculator.Progress | lib/utils/rating-calculator.ts:53-65 | the completion percentage of a checklist never exceeds 100 |
| RatingCalculator.CalculateProgress | lib/utils/rating-calculator.ts:53-65 | the loops return the rounded percentage of checked items, or 0 without items |
| RatingCalculator.ProgressFacts | lib/utils/rating-calculator.ts:53-65 | the percentage is at most 100; 0 without items; 0 with nothing checked; 100 with every item checked |
| RatingCalculator.RoundedPercentOfNone | lib/utils/rating-calculator.ts:64 | nothing checked out of any positive total rounds to 0 |
| RatingCalculator.RoundedPercentOfAll | lib/utils/rating-calculator.ts:64 | everything checked rounds to exactly 100 |
| RatingCalculator.ProgressExamples | lib/utils/rating-calculator.ts:64 | 3 of 4 is 75 and 1 of 8 is 13, a half rounded up |
| RatingCalculator.RatingColor | lib/utils/rating-calculator.ts:67-75 | the background, text and border classes of a badge all use the rating's one colour family (green, blue, yellow, red), at shades 100, 800 and 300 |
| RatingCalculator.RatingColorsDistinct | lib/utils/rating-calculator.ts:67-75 | the four tiers have four different badge class strings |
| RatingCalculator.ExcellentExplanationIgnoresCounts | lib/utils/rating-calculator.ts:83-84 | the excellent sentence is the same for any counts |
| RatingCalculator.RatingExplanation | lib/utils/rating-calculator.ts:77-92 | the good, fair and poor sentences open with the unchecked count's numeral, followed by a non-digit, so the count reads back unambiguously |
| RatingCalculator.AfterCount | lib/utils/rating-calculator.ts:86-90 | the text after the count starts with a space; for fair and poor it starts with " issue(s) found" |
| RatingCalculator.CriticalClause | lib/utils/rating-calculator.ts:88-89 | the critical clause is empty exactly when there is no critical issue; otherwise the count's numeral follows " including " |
| RatingCalculator.ExplanationCriticalClause | lib/utils/rating-calculator.ts:87-90 | for fair and poor, the sentence is the no-critical sentence with the critical clause inserted after "issue(s) found"; the clause is empty exactly when the critical count is 0; with critical issues the sentence contains " including N critical issue(s)" |
| NextStepsGenerator.Message | lib/utils/next-steps-generator.ts:10-52 | every text opens with its kind's icon, and the text of a counted kind contains its count's numeral |
| NextStepsGenerator.Icon | lib/utils/next-steps-generator.ts:12-51 | the kind's phase can be read back from its icon, so no two kinds share one |
| NextStepsGenerator.MessageInjective | lib/utils/next-steps-generator.ts:10-52 | different steps have different texts, counts included |
| NextStepsGenerator.SamePhase | lib/utils/next-steps-generator.ts:10-52 | steps in the same phase are of the same kind, with the same wording around the count |
| NextStepsGenerator.CountInMessage | lib/utils/next-steps-generator.ts:12-41 | two texts of the same count-carrying kind are equal only when the counts are equal |
| NextStepsGenerator.RendersDeterminesPlan | lib/utils/next-steps-generator.ts:7-54 | a list of texts is the rendering of at most one list of steps |
| NextStepsGenerator.Wanted | lib/utils/next-steps-generator.ts:10-52 | a wanted count-carrying step never reports a count of zero |
| NextStepsGenerator.NextStepPlan | lib/utils/next-steps-generator.ts:7-54 | every step of the plan is wanted by its rule |
| NextStepsGenerator.PushIf | lib/utils/next-steps-generator.ts:10-14 | one guarded push, whose guard must be the step's own rule: the texts then render the steps so far, followed by the step exactly when the rule wants it |
| NextStepsGenerator.PushEarlySteps | lib/utils/next-steps-generator.ts:9-29 | the texts pushed for the critical tier, the high tier and the rating render the plan's decisions on those five candidates |
| NextStepsGenerator.PushLateSteps | lib/utils/next-steps-generator.ts:31-52 | continuing from those, the texts pushed for the medium and low tiers, the fixed steps and the launch step render the whole plan |
| NextStepsGenerator.GenerateNextSteps | lib/utils/next-steps-generator.ts:3-55 | the returned texts are, one for one, the texts of the plan |
| NextStepsGenerator.PlanUnfolded | lib/utils/next-steps-generator.ts:7-54 | the plan is the ten candidate decisions, each step present exactly when its rule wants it, in source order |
| NextStepsGenerator.SelectMembers | lib/utils/next-steps-generator.ts:10-52 | selection keeps exactly the wanted candidates |
| NextStepsGenerator.SelectInPhaseOrder | lib/utils/next-steps-generator.ts:10-52 | selection keeps the candidates' order |
| NextStepsGenerator.PlanIsWantedInOrder | lib/utils/next-steps-generator.ts:10-52 | the plan holds exactly the wanted steps, with phases strictly increasing: fixed order and no step twice |
| NextStepsGenerator.PhaseOrderedUnique | lib/utils/next-steps-generator.ts:10-52 | two phase-ordered lists with the same members are equal |
| NextStepsGenerator.InTail | lib/utils/next-steps-generator.ts:10-52 | in a phase-ordered list, the members after the first are exactly the members other than the first |
| NextStepsGenerator.PlanIsDeterminedByRules | lib/utils/next-steps-generator.ts:10-52 | any phase-ordered list of exactly the wanted steps is the plan |
| NextStepsGenerator.PlanEnding | lib/utils/next-steps-generator.ts:46-52 | the plan ends with assign and follow-up, followed by the launch step for excellent and by nothing otherwise |
| NextStepsGenerator.PlanCriticalFirst | lib/utils/next-steps-generator.ts:10-14 | with critical issues the first step is the critical step carrying their number; without them no critical step appears |
| NextStepsGenerator.PlanBacklog | lib/utils/next-steps-generator.ts:39-43 | a backlog step appears exactly when the low tier is non-empty and the rating is not poor |
| NextStepsGenerator.PlanRatingSteps | lib/utils/next-steps-generator.ts:24-29 | the review and timeline steps appear exactly for poor, the prioritise step exactly for fair |
| NextStepsGenerator.PlanCounts | lib/utils/next-steps-generator.ts:12-41 | every count carried by a step is the length of its tier |
| NextStepsGenerator.PlanLength | lib/utils/next-steps-generator.ts:7-54 | the plan has 2 to 7 steps, and is exactly assign, follow-up, launch for excellent with all tiers empty |
| NextStepsGenerator.PlanPoorAllTiers | lib/utils/next-steps-generator.ts:10-47 | poor with every tier non-empty gives critical, high, review, timeline, sprint, assign, follow-up |
| ChecklistSectionUpdate.FlipMatching | components/qa/checklist-section.tsx:16-18 | same length; each item keeps its id and text, and its tick is negated exactly when its id matches |
| ChecklistSectionUpdate.ToggleItem | components/qa/checklist-section.tsx:15-25 | matching items negated, the others unchanged, count and order kept; id, title and notes unchanged; completed holds exactly when every item is ticked, including for no items |
| ChecklistSectionUpdate.SetIssues | components/qa/checklist-section.tsx:27-32 | the notes are replaced; id, title, items and completed are untouched |
| ChecklistSectionUpdate.CheckedCountOf | components/qa/checklist-section.tsx:34 | the checked counter never exceeds the total, and equals it exactly when every item is ticked |
| ChecklistSectionUpdate.TotalCountOf | components/qa/checklist-section.tsx:35 | the total counter is the ticked items plus the unticked items |
| ChecklistSectionUpdate.CounterMatchesCompleted | components/qa/checklist-section.tsx:19-35 | for a section whose flag agrees with its items, checked count is at most total count, with equality exactly when completed |
| ChecklistSectionUpdate.ToggleCounterMatchesCompleted | components/qa/checklist-section.tsx:15-35 | after any toggle, checked equals total exactly when completed |
| ChecklistSectionUpdate.ToggleTwiceRestoresItems | components/qa/checklist-section.tsx:16-18 | toggling the same id twice restores the items |
| ChecklistSectionUpdate.ToggleTwiceRestoresSection | components/qa/checklist-section.tsx:15-25 | for a section whose flag agrees with its items, toggling the same id twice restores the whole section |
| ChecklistSectionUpdate.ToggleUnknownId | components/qa/checklist-section.tsx:16-19 | toggling an id no item carries changes no item and only recomputes completed |
| ChecklistSectionUpdate.UntouchedWithoutMatch | components/qa/checklist-section.tsx:16-18 | items whose ids all differ from the clicked id are returned unchanged |
| ChecklistSectionUpdate.ToggleShiftsCounter | components/qa/checklist-section.tsx:16-34 | with unique ids, toggling an unticked item raises the checked count by one and toggling a ticked one lowers it by one |
| ChecklistSectionUpdate.FlipOnlyOne | components/qa/checklist-section.tsx:16-18 | with unique ids, a click changes only the clicked item, which becomes its negation |
| PrioritySummaryEditor.SetEntry | components/qa/priority-summary.tsx:18 | same length, the entry at the index becomes the value, every other entry unchanged |
| PrioritySummaryEditor.SetEntryUnchanged | components/qa/priority-summary.tsx:16-20 | setting an entry to its current value changes nothing |
| PrioritySummaryEditor.Splice | components/qa/priority-summary.tsx:30 | an index inside the tier removes one entry: earlier entries keep their positions, later ones move up by one; an index past the end removes nothing |
| PrioritySummaryEditor.SpliceRemovesOne | components/qa/priority-summary.tsx:30 | the removed entry is exactly the one at the index: the contents lose that one entry |
| PrioritySummaryEditor.AddThenRemoveLastRestores | components/qa/priority-summary.tsx:22-32 | appending an empty entry and removing the new last entry restores the tier |
| PrioritySummaryEditor.Editor.constructor | components/qa/priority-summary.tsx:15 | the editor starts from the given summary |
| PrioritySummaryEditor.Editor.UpdatePriority | components/qa/priority-summary.tsx:16-20 | the tier becomes the old tier with the entry set; the other three tiers are unchanged |
| PrioritySummaryEditor.Editor.AddPriority | components/qa/priority-summary.tsx:22-26 | the tier becomes the old tier with "" appended; the other three tiers are unchanged |
| PrioritySummaryEditor.Editor.RemovePriority | components/qa/priority-summary.tsx:28-32 | the tier becomes the old tier spliced at the index; the other three tiers are unchanged |

## Left out

- Rendering, React state and the change callbacks (`onSectionChange`, `onPrioritySummaryChange`) are not modelled. An update's result is the value handed to the callback. A tier's badge shows the length of `Editor.Tier(level)`; the badge markup itself is not modelled.
- Database, authentication, storage and the pages that call the core are not part of this model.
- PrioritySummaryEditor.Editor: the source copies the summary shallowly, so the caller's arrays are the ones mutated. The model keeps the tiers as sequence fields of one object and does not capture that sharing.
- PrioritySummaryEditor.Editor.UpdatePriority: requires an index inside the tier. An assignment past the end of a JavaScript array would lengthen it with holes, and the editor only offers existing entries.
- PrioritySummaryEditor.Editor.RemovePriority: the index is a natural number. A negative `splice` start, which counts from the end in JavaScript, is not modelled.
- RatingCalculator.RoundedPercent: uses exact rational rounding with halves up. JavaScript computes `checked / total * 100` in floating point first, which can land just below an exact half (29 of 200 gives 14.499…, rounded to 14, where the exact value 14.5 rounds to 15).
- RatingCalculator.RatingExplanation: the counts are natural numbers, as every caller passes item and issue counts. The source's parameters accept any number.
- RatingCalculator.ExplanationCriticalClause: for a critical count of 0, the sentence is proved equal to the sentence with an empty clause. Absence of the text " including " is not stated separately.
- NextStepsGenerator.Message: each emoji is one Unicode scalar value. The warning sign is followed by its variation selector U+FE0F, as in the source. JavaScript strings count UTF-16 code units, so string lengths differ from the source's; the model makes no claim about them.

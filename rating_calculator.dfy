/**
 * The report-scoring engine: the overall rating from the unchecked-item count and the
 * number of critical issues, the completion percentage, the list of unchecked items
 * grouped by section, and the badge colour and explanation text of each rating.
 */
module RatingCalculator {
  import opened Types
  import opened ChecklistItems
  import opened Decimal

  // ---------------------------------------------------------------- the rating rules

  /**
   * First match wins: no unchecked item and no critical issue is excellent; at most
   * three unchecked items and no critical issue is good; at most ten unchecked items
   * and at most two critical issues is fair; anything else is poor.
   * The ensures clauses characterise each tier without relying on rule order.
   */
  function RatingFor(unchecked: nat, critical: nat): (r: Rating)
    ensures r == Excellent <==> unchecked == 0 && critical == 0
    ensures r == Good <==> 1 <= unchecked <= 3 && critical == 0
    ensures r == Fair <==> (unchecked > 3 || critical > 0) && unchecked <= 10 && critical <= 2
    ensures r == Poor <==> unchecked > 10 || critical > 2
  {
    if unchecked == 0 && critical == 0 then Excellent
    else if unchecked <= 3 && critical == 0 then Good
    else if unchecked <= 10 && critical <= 2 then Fair
    else Poor
  }

  /** The rating of a checklist together with its priority summary. */
  function OverallRating(checklist: seq<ChecklistCategory>, summary: PrioritySummary): (r: Rating)
    ensures r == Excellent <==> UncheckedCount(checklist) == 0 && summary.critical == []
    ensures r == Poor <==> UncheckedCount(checklist) > 10 || |summary.critical| > 2
  {
    RatingFor(UncheckedCount(checklist), |summary.critical|)
  }

  /** More unchecked items or more critical issues never give a better tier. */
  lemma RatingMonotone(u: nat, c: nat, u': nat, c': nat)
    requires u <= u' && c <= c'
    ensures Rank(RatingFor(u, c)) <= Rank(RatingFor(u', c'))
  {
  }

  /** An empty checklist with no critical issue rates excellent. */
  lemma EmptyChecklistIsExcellent(summary: PrioritySummary)
    requires summary.critical == []
    ensures OverallRating([], summary) == Excellent
  {
  }

  /** Recording one more critical issue never improves the rating. */
  lemma AddingCriticalIssueNeverImproves(checklist: seq<ChecklistCategory>, summary: PrioritySummary, issue: string)
    ensures Rank(OverallRating(checklist, summary))
         <= Rank(OverallRating(checklist, summary.(critical := summary.critical + [issue])))
  {
    RatingMonotone(UncheckedCount(checklist), |summary.critical|, UncheckedCount(checklist), |summary.critical| + 1);
  }

  /** The checklist with section `si` of category `ci` replaced by `section`. */
  function ReplaceSection(checklist: seq<ChecklistCategory>, ci: nat, si: nat, section: ChecklistSection): seq<ChecklistCategory>
    requires ci < |checklist| && si < |checklist[ci].sections|
  {
    var cat := checklist[ci];
    checklist[ci := cat.(sections := cat.sections[si := section])]
  }

  /** Replacing one section changes the unchecked count by exactly that section's difference. */
  lemma ReplaceSectionCount(checklist: seq<ChecklistCategory>, ci: nat, si: nat, section: ChecklistSection)
    requires ci < |checklist| && si < |checklist[ci].sections|
    ensures UncheckedCount(ReplaceSection(checklist, ci, si, section)) + CountWhere(checklist[ci].sections[si].items, false)
         == UncheckedCount(checklist) + CountWhere(section.items, false)
  {
    var category := checklist[ci];
    ReplaceInSectionsCount(category.sections, si, section, false);
    ReplaceInChecklistCount(checklist, ci, category.(sections := category.sections[si := section]), false);
  }

  /**
   * Replacing a section by one with at least as many unchecked items (adding an
   * unchecked item, unticking an item) never improves the rating.
   */
  lemma MoreUncheckedNeverImproves(checklist: seq<ChecklistCategory>, summary: PrioritySummary,
                                   ci: nat, si: nat, section: ChecklistSection)
    requires ci < |checklist| && si < |checklist[ci].sections|
    requires CountWhere(checklist[ci].sections[si].items, false) <= CountWhere(section.items, false)
    ensures Rank(OverallRating(checklist, summary)) <= Rank(OverallRating(ReplaceSection(checklist, ci, si, section), summary))
  {
    ReplaceSectionCount(checklist, ci, si, section);
    RatingMonotone(UncheckedCount(checklist), |summary.critical|,
                   UncheckedCount(ReplaceSection(checklist, ci, si, section)), |summary.critical|);
  }

  // ---------------------------------------------------------------- counting

  /** Counts unchecked items by walking categories, sections and items in order. */
  method CountUncheckedItems(checklist: seq<ChecklistCategory>) returns (count: nat)
    ensures count == UncheckedCount(checklist)
  {
    count := 0;
    var i := 0;
    while i < |checklist|
      invariant i <= |checklist|
      invariant count == CountWhere(Flatten(checklist[..i]), false)
    {
      var sections := checklist[i].sections;
      var j := 0;
      while j < |sections|
        invariant j <= |sections|
        invariant count == CountWhere(Flatten(checklist[..i]), false) + CountWhere(SectionItems(sections[..j]), false)
      {
        var items := sections[j].items;
        var k := 0;
        while k < |items|
          invariant k <= |items|
          invariant count == CountWhere(Flatten(checklist[..i]), false) + CountWhere(SectionItems(sections[..j]), false)
                             + CountWhere(items[..k], false)
        {
          if !items[k].checked {
            count := count + 1;
          }
          assert items[..k + 1][..k] == items[..k];
          k := k + 1;
        }
        assert items[..k] == items;
        assert sections[..j + 1][..j] == sections[..j];
        CountWhereAppend(SectionItems(sections[..j]), items, false);
        j := j + 1;
      }
      assert sections[..j] == sections;
      assert checklist[..i + 1][..i] == checklist[..i];
      CountWhereAppend(Flatten(checklist[..i]), SectionItems(sections), false);
      i := i + 1;
    }
    assert checklist[..i] == checklist;
  }

  /** The overall rating, computed from the counted unchecked items. */
  method CalculateOverallRating(checklist: seq<ChecklistCategory>, summary: PrioritySummary) returns (rating: Rating)
    ensures rating == OverallRating(checklist, summary)
    ensures rating == Excellent <==> UncheckedCount(checklist) == 0 && summary.critical == []
  {
    var uncheckedCount := CountUncheckedItems(checklist);
    var criticalCount := |summary.critical|;
    rating := RatingFor(uncheckedCount, criticalCount);
  }

  // ---------------------------------------------------------------- unchecked items by section

  /** One entry of the unchecked-items listing: where, which item texts, and the section's notes. */
  datatype UncheckedGroup = UncheckedGroup(category: string, section: string, items: seq<string>, issuesFound: IssuesFound)

  /** The texts of the unchecked items, in order. */
  function UncheckedTexts(items: seq<ChecklistItem>): (texts: seq<string>)
    ensures |texts| == CountWhere(items, false)
    ensures forall t :: t in texts <==> exists i :: 0 <= i < |items| && !items[i].checked && items[i].text == t
  {
    if items == [] then []
    else
      var last := items[|items| - 1];
      UncheckedTexts(items[..|items| - 1]) + (if last.checked then [] else [last.text])
  }

  /** One item contributes its text exactly when it is unchecked. */
  lemma UncheckedTextsOne(item: ChecklistItem)
    ensures UncheckedTexts([item]) == if item.checked then [] else [item.text]
  {
    assert [item][..0] == [];
  }

  /** The texts keep the items' order: the texts of two runs of items joined are the two lists joined. */
  lemma {:induction false} UncheckedTextsAppend(a: seq<ChecklistItem>, b: seq<ChecklistItem>)
    ensures UncheckedTexts(a + b) == UncheckedTexts(a) + UncheckedTexts(b)
    decreases |b|
  {
    if b == [] {
      assert a + b == a;
    } else {
      var front := b[..|b| - 1];
      assert (a + b)[..|a + b| - 1] == a + front;
      UncheckedTextsAppend(a, front);
    }
  }

  /** The entry for one section, or nothing when all its items are checked. */
  function SectionGroup(category: string, section: ChecklistSection): seq<UncheckedGroup>
  {
    var texts := UncheckedTexts(section.items);
    if |texts| > 0 then [UncheckedGroup(category, section.sectionTitle, texts, section.issuesFound)] else []
  }

  function SectionGroups(category: string, sections: seq<ChecklistSection>): seq<UncheckedGroup>
  {
    if sections == [] then []
    else SectionGroups(category, sections[..|sections| - 1]) + SectionGroup(category, sections[|sections| - 1])
  }

  /** The unchecked-items listing of a whole checklist, in category/section order. */
  function UncheckedGroups(checklist: seq<ChecklistCategory>): (groups: seq<UncheckedGroup>)
    ensures forall g :: g in groups ==> exists k :: 0 <= k < |checklist| && checklist[k].category == g.category
  {
    if checklist == [] then []
    else
      var n := |checklist|;
      var front := UncheckedGroups(checklist[..n - 1]);
      assert forall k :: 0 <= k < n - 1 ==> checklist[..n - 1][k] == checklist[k];
      SectionGroupsCategory(checklist[n - 1].category, checklist[n - 1].sections);
      front + SectionGroups(checklist[n - 1].category, checklist[n - 1].sections)
  }

  /** Every entry made for a category's sections carries that category's name. */
  lemma {:induction false} SectionGroupsCategory(category: string, sections: seq<ChecklistSection>)
    ensures forall g :: g in SectionGroups(category, sections) ==> g.category == category
  {
    if sections != [] {
      SectionGroupsCategory(category, sections[..|sections| - 1]);
    }
  }

  /** Total number of item texts in a listing. */
  function GroupedItemCount(groups: seq<UncheckedGroup>): nat
  {
    if groups == [] then 0 else GroupedItemCount(groups[..|groups| - 1]) + |groups[|groups| - 1].items|
  }

  /** Builds the unchecked-items listing by walking categories and sections in order. */
  method GetUncheckedItems(checklist: seq<ChecklistCategory>) returns (unchecked: seq<UncheckedGroup>)
    ensures unchecked == UncheckedGroups(checklist)
  {
    unchecked := [];
    var i := 0;
    while i < |checklist|
      invariant i <= |checklist|
      invariant unchecked == UncheckedGroups(checklist[..i])
    {
      unchecked := PushSectionGroups(unchecked, checklist[i]);
      assert checklist[..i + 1][..i] == checklist[..i];
      i := i + 1;
    }
    assert checklist[..i] == checklist;
  }

  /** The per-category step: appends the entry of each section of `category` that has unchecked items. */
  method PushSectionGroups(unchecked: seq<UncheckedGroup>, category: ChecklistCategory) returns (extended: seq<UncheckedGroup>)
    ensures extended == unchecked + SectionGroups(category.category, category.sections)
  {
    extended := unchecked;
    var j := 0;
    while j < |category.sections|
      invariant j <= |category.sections|
      invariant extended == unchecked + SectionGroups(category.category, category.sections[..j])
    {
      var section := category.sections[j];
      ghost var groups := SectionGroups(category.category, category.sections[..j]);
      var uncheckedInSection := UncheckedTexts(section.items);
      if |uncheckedInSection| > 0 {
        extended := extended + [UncheckedGroup(category.category, section.sectionTitle, uncheckedInSection, section.issuesFound)];
      }
      assert extended == unchecked + groups + SectionGroup(category.category, section);
      SectionGroupsStep(category.category, category.sections, j);
      assert extended == unchecked + (groups + SectionGroup(category.category, section));
      j := j + 1;
    }
    assert category.sections[..j] == category.sections;
  }

  /** The groups of one more section. */
  lemma SectionGroupsStep(category: string, sections: seq<ChecklistSection>, j: nat)
    requires j < |sections|
    ensures SectionGroups(category, sections[..j + 1]) == SectionGroups(category, sections[..j]) + SectionGroup(category, sections[j])
  {
    assert sections[..j + 1][..j] == sections[..j];
  }

  lemma {:induction false} GroupedItemCountAppend(a: seq<UncheckedGroup>, b: seq<UncheckedGroup>)
    ensures GroupedItemCount(a + b) == GroupedItemCount(a) + GroupedItemCount(b)
  {
    if b != [] {
      var b' := b[..|b| - 1];
      assert (a + b)[..|a + b| - 1] == a + b';
      GroupedItemCountAppend(a, b');
    } else {
      assert a + b == a;
    }
  }

  lemma {:induction false} SectionGroupsCount(category: string, sections: seq<ChecklistSection>)
    ensures GroupedItemCount(SectionGroups(category, sections)) == CountWhere(SectionItems(sections), false)
  {
    if sections != [] {
      var init, last := sections[..|sections| - 1], sections[|sections| - 1];
      SectionGroupsCount(category, init);
      GroupedItemCountAppend(SectionGroups(category, init), SectionGroup(category, last));
      CountWhereAppend(SectionItems(init), last.items, false);
      var g := SectionGroup(category, last);
      assert g != [] ==> [] + [g[0]] == g;
    }
  }

  /** The listing holds exactly as many item texts as there are unchecked items. */
  lemma {:induction false} GroupedItemsMatchUncheckedCount(checklist: seq<ChecklistCategory>)
    ensures GroupedItemCount(UncheckedGroups(checklist)) == UncheckedCount(checklist)
  {
    if checklist != [] {
      var init, last := checklist[..|checklist| - 1], checklist[|checklist| - 1];
      GroupedItemsMatchUncheckedCount(init);
      GroupedItemCountAppend(UncheckedGroups(init), SectionGroups(last.category, last.sections));
      SectionGroupsCount(last.category, last.sections);
      CountWhereAppend(Flatten(init), SectionItems(last.sections), false);
    }
  }

  lemma {:induction false} SectionGroupsNonEmpty(category: string, sections: seq<ChecklistSection>)
    ensures forall g :: g in SectionGroups(category, sections) ==> |g.items| > 0 && g.category == category
  {
    if sections != [] {
      SectionGroupsNonEmpty(category, sections[..|sections| - 1]);
    }
  }

  /** No entry of the listing is empty: fully checked sections are omitted. */
  lemma {:induction false} GroupsAreNonEmpty(checklist: seq<ChecklistCategory>)
    ensures forall g :: g in UncheckedGroups(checklist) ==> |g.items| > 0
  {
    if checklist != [] {
      var last := checklist[|checklist| - 1];
      GroupsAreNonEmpty(checklist[..|checklist| - 1]);
      SectionGroupsNonEmpty(last.category, last.sections);
    }
  }

  /** The listing is empty exactly when no item is unchecked. */
  lemma NoGroupsIffAllChecked(checklist: seq<ChecklistCategory>)
    ensures UncheckedGroups(checklist) == [] <==> UncheckedCount(checklist) == 0
  {
    var groups := UncheckedGroups(checklist);
    GroupedItemsMatchUncheckedCount(checklist);
    GroupsAreNonEmpty(checklist);
    if groups != [] {
      assert groups[|groups| - 1] in groups;
    }
  }

  /** The listing follows checklist order: listing a concatenation concatenates the listings. */
  lemma {:induction false} UncheckedGroupsAppend(a: seq<ChecklistCategory>, b: seq<ChecklistCategory>)
    ensures UncheckedGroups(a + b) == UncheckedGroups(a) + UncheckedGroups(b)
  {
    if b != [] {
      var b' := b[..|b| - 1];
      assert (a + b)[..|a + b| - 1] == a + b';
      UncheckedGroupsAppend(a, b');
    } else {
      assert a + b == a;
    }
  }

  // ---------------------------------------------------------------- progress

  /**
   * `100 * part / whole` rounded to the nearest integer, halves rounded up
   * (Math.round on a non-negative number), in exact integer arithmetic.
   */
  function RoundedPercent(part: nat, whole: nat): (p: nat)
    requires 0 < whole && part <= whole
    ensures 2 * whole * p <= 200 * part + whole < 2 * whole * p + 2 * whole
    ensures p <= 100
  {
    var p := (200 * part + whole) / (2 * whole);
    assert p <= 100 by {
      assert 200 * part + whole <= 201 * whole;
      if p > 100 {
        assert 2 * whole * p >= 2 * whole * 101 by {
          MultiplyMonotone(2 * whole, 101, p);
        }
      }
    }
    p
  }

  lemma MultiplyMonotone(k: nat, a: nat, b: nat)
    requires a <= b
    ensures k * a <= k * b
  {
  }

  /** Percentage of checked items; 0 for a checklist without items. */
  function Progress(checklist: seq<ChecklistCategory>): (percent: nat)
    ensures percent <= 100
  {
    UncheckedPlusCheckedIsTotal(checklist);
    if TotalCount(checklist) > 0 then RoundedPercent(CheckedCount(checklist), TotalCount(checklist)) else 0
  }

  /** Sums the item totals and checked counts section by section, then rounds. */
  method CalculateProgress(checklist: seq<ChecklistCategory>) returns (percent: nat)
    ensures percent == Progress(checklist)
  {
    var totalItems := 0;
    var checkedItems := 0;
    var i := 0;
    while i < |checklist|
      invariant i <= |checklist|
      invariant totalItems == |Flatten(checklist[..i])|
      invariant checkedItems == CountWhere(Flatten(checklist[..i]), true)
    {
      var sections := checklist[i].sections;
      var j := 0;
      while j < |sections|
        invariant j <= |sections|
        invariant totalItems == |Flatten(checklist[..i])| + |SectionItems(sections[..j])|
        invariant checkedItems == CountWhere(Flatten(checklist[..i]), true) + CountWhere(SectionItems(sections[..j]), true)
      {
        totalItems := totalItems + |sections[j].items|;
        checkedItems := checkedItems + CountWhere(sections[j].items, true);
        assert sections[..j + 1][..j] == sections[..j];
        CountWhereAppend(SectionItems(sections[..j]), sections[j].items, true);
        j := j + 1;
      }
      assert sections[..j] == sections;
      assert checklist[..i + 1][..i] == checklist[..i];
      CountWhereAppend(Flatten(checklist[..i]), SectionItems(sections), true);
      i := i + 1;
    }
    assert checklist[..i] == checklist;
    UncheckedPlusCheckedIsTotal(checklist);
    percent := if totalItems > 0 then RoundedPercent(checkedItems, totalItems) else 0;
  }

  /** The percentage lies in 0..100; it is 0 without items or with nothing checked, 100 with everything checked. */
  lemma ProgressFacts(checklist: seq<ChecklistCategory>)
    ensures Progress(checklist) <= 100
    ensures TotalCount(checklist) == 0 ==> Progress(checklist) == 0
    ensures CheckedCount(checklist) == 0 ==> Progress(checklist) == 0
    ensures TotalCount(checklist) > 0 && UncheckedCount(checklist) == 0 ==> Progress(checklist) == 100
  {
    UncheckedPlusCheckedIsTotal(checklist);
    var t := TotalCount(checklist);
    if t > 0 {
      RoundedPercentOfNone(t);
      RoundedPercentOfAll(t);
    }
  }

  /** None of a positive whole is 0 percent. */
  lemma RoundedPercentOfNone(whole: nat)
    requires whole > 0
    ensures RoundedPercent(0, whole) == 0
  {
    var p := RoundedPercent(0, whole);
    if p > 0 {
      MultiplyMonotone(2 * whole, 1, p);
    }
  }

  /** All of a positive whole is 100 percent. */
  lemma RoundedPercentOfAll(whole: nat)
    requires whole > 0
    ensures RoundedPercent(whole, whole) == 100
  {
    var p := RoundedPercent(whole, whole);
    if p < 100 {
      MultiplyMonotone(2 * whole, p + 1, 100);
    }
  }

  /** Three of four items checked is 75 percent; one of eight is 13 (12.5 rounds up). */
  lemma ProgressExamples()
    ensures RoundedPercent(3, 4) == 75
    ensures RoundedPercent(1, 8) == 13
  {
  }

  // ---------------------------------------------------------------- colour and explanation

  /** The colour family of a rating's badge. */
  function Hue(rating: Rating): string
  {
    match rating
    case Excellent => "green"
    case Good => "blue"
    case Fair => "yellow"
    case Poor => "red"
  }

  /** The badge classes of a rating: background, text and border all in the rating's colour family. */
  function RatingColor(rating: Rating): (classes: string)
    ensures classes == ("bg-" + Hue(rating) + "-100") + (" text-" + Hue(rating) + "-800") + (" border-" + Hue(rating) + "-300")
  {
    match rating
    case Excellent =>
      assert "bg-green-100" == "bg-" + "green" + "-100" && " text-green-800" == " text-" + "green" + "-800";
      assert " border-green-300" == " border-" + "green" + "-300";
      "bg-green-100" + " text-green-800" + " border-green-300"
    case Good =>
      assert "bg-blue-100" == "bg-" + "blue" + "-100" && " text-blue-800" == " text-" + "blue" + "-800";
      assert " border-blue-300" == " border-" + "blue" + "-300";
      "bg-blue-100" + " text-blue-800" + " border-blue-300"
    case Fair =>
      assert "bg-yellow-100" == "bg-" + "yellow" + "-100" && " text-yellow-800" == " text-" + "yellow" + "-800";
      assert " border-yellow-300" == " border-" + "yellow" + "-300";
      "bg-yellow-100" + " text-yellow-800" + " border-yellow-300"
    case Poor =>
      assert "bg-red-100" == "bg-" + "red" + "-100" && " text-red-800" == " text-" + "red" + "-800";
      assert " border-red-300" == " border-" + "red" + "-300";
      "bg-red-100" + " text-red-800" + " border-red-300"
  }

  /** Each tier has its own badge classes. */
  lemma RatingColorsDistinct(r1: Rating, r2: Rating)
    requires r1 != r2
    ensures RatingColor(r1) != RatingColor(r2)
  {
    // each colour name occurs three times, and the four names have four different lengths
    assert |RatingColor(r1)| != |RatingColor(r2)|;
  }

  /** The clause naming the critical issues, present only when there are some. */
  function CriticalClause(criticalCount: nat): (clause: string)
    ensures clause == [] <==> criticalCount == 0
    ensures criticalCount > 0 ==> var lead := " including ";
              |lead| + |NatToString(criticalCount)| <= |clause| &&
              clause[|lead|..|lead| + |NatToString(criticalCount)|] == NatToString(criticalCount)
  {
    if criticalCount > 0 then " including " + NatToString(criticalCount) + " critical issue(s)" else ""
  }

  /** The sentence that explains a rating; all but the excellent one open with the unchecked count. */
  function RatingExplanation(rating: Rating, uncheckedCount: nat, criticalCount: nat): (sentence: string)
    ensures rating != Excellent ==> NatToString(uncheckedCount) <= sentence
    ensures rating != Excellent ==> var k := |NatToString(uncheckedCount)|; k < |sentence| && !IsDigit(sentence[k])
  {
    if rating == Excellent then "All checklist items passed with no critical issues. Site is ready for launch."
    else NatToString(uncheckedCount) + AfterCount(rating, criticalCount)
  }

  /** What follows the unchecked count in the good, fair and poor sentences. */
  function AfterCount(rating: Rating, criticalCount: nat): (rest: string)
    requires rating != Excellent
    ensures |rest| > 0 && rest[0] == ' '
    ensures rating != Good ==> " issue(s) found" <= rest
  {
    if rating == Good then " minor issue(s) found" + ". Site is in good shape with minor improvements needed."
    else if rating == Fair then " issue(s) found" + CriticalClause(criticalCount) + ". Several improvements recommended before launch."
    else " issue(s) found" + CriticalClause(criticalCount) + ". Significant work needed before launch."
  }

  /** The excellent text depends on neither count. */
  lemma ExcellentExplanationIgnoresCounts(u: nat, c: nat, u': nat, c': nat)
    ensures RatingExplanation(Excellent, u, c) == RatingExplanation(Excellent, u', c')
  {
  }

  /**
   * For fair and poor, the text after the count is, with critical issues, the text
   * without them with " including N critical issue(s)" inserted right after "issue(s) found";
   * that clause is non-empty exactly when there is a critical issue.
   */
  lemma ExplanationCriticalClause(rating: Rating, u: nat, c: nat)
    requires rating == Fair || rating == Poor
    ensures var base := AfterCount(rating, 0);
            var k := |" issue(s) found"|;
            k <= |base| && AfterCount(rating, c) == base[..k] + CriticalClause(c) + base[k..]
    ensures CriticalClause(c) == [] <==> c == 0
    ensures c > 0 ==> Contains(RatingExplanation(rating, u, c), " including " + NatToString(c) + " critical issue(s)")
  {
    var lead := " issue(s) found";
    var tail := if rating == Fair then ". Several improvements recommended before launch."
                else ". Significant work needed before launch.";
    assert AfterCount(rating, 0) == lead + CriticalClause(0) + tail;
    assert AfterCount(rating, c) == lead + CriticalClause(c) + tail;
    InsertedPiece(lead, CriticalClause(c), tail);
    ContainsAfterPrefix(NatToString(u), AfterCount(rating, c), CriticalClause(c));
  }
}

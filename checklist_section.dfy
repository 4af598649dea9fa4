/**
 * The section card's update logic: toggling one item's tick, recomputing the cached
 * `completed` flag, replacing the issue notes, and the checked/total counter it shows.
 * Every update builds a new section value; nothing is changed in place.
 */
module ChecklistSectionUpdate {
  import opened Types
  import opened ChecklistItems

  /** Every item is ticked; vacuously true of a section without items. */
  predicate AllChecked(items: seq<ChecklistItem>)
  {
    forall i :: 0 <= i < |items| ==> items[i].checked
  }

  /** A section whose cached `completed` flag agrees with its items. */
  predicate Consistent(section: ChecklistSection)
  {
    section.completed == AllChecked(section.items)
  }

  /** One item after a click on `itemId`: negated if the ids match, otherwise untouched. */
  function ToggleOne(item: ChecklistItem, itemId: string): ChecklistItem
  {
    if item.id == itemId then item.(checked := !item.checked) else item
  }

  /** The items after a click on `itemId`: each item mapped on its own, in place. */
  function FlipMatching(items: seq<ChecklistItem>, itemId: string): (flipped: seq<ChecklistItem>)
    ensures |flipped| == |items|
    ensures forall i :: 0 <= i < |items| ==> flipped[i] == ToggleOne(items[i], itemId)
  {
    if items == [] then []
    else FlipMatching(items[..|items| - 1], itemId) + [ToggleOne(items[|items| - 1], itemId)]
  }

  /**
   * The section after a click on the item `itemId`: the matching items are negated, every
   * other item, the order and the count stay, and `completed` is recomputed from the new items.
   */
  function ToggleItem(section: ChecklistSection, itemId: string): (toggled: ChecklistSection)
    ensures toggled.sectionId == section.sectionId
    ensures toggled.sectionTitle == section.sectionTitle
    ensures toggled.issuesFound == section.issuesFound
    ensures |toggled.items| == |section.items|
    ensures forall i :: 0 <= i < |section.items| ==>
              if section.items[i].id == itemId
              then toggled.items[i] == section.items[i].(checked := !section.items[i].checked)
              else toggled.items[i] == section.items[i]
    ensures Consistent(toggled)
  {
    var items := FlipMatching(section.items, itemId);
    section.(items := items, completed := AllChecked(items))
  }

  /** The section with new issue notes: nothing else changes. */
  function SetIssues(section: ChecklistSection, issues: IssuesFound): (updated: ChecklistSection)
    ensures updated.issuesFound == issues
    ensures updated.sectionId == section.sectionId && updated.sectionTitle == section.sectionTitle
    ensures updated.items == section.items && updated.completed == section.completed
  {
    section.(issuesFound := issues)
  }

  /** The counter shown on the card: ticked items; it reaches the total exactly when every item is ticked. */
  function CheckedCountOf(section: ChecklistSection): (checked: nat)
    ensures checked <= TotalCountOf(section)
    ensures checked == TotalCountOf(section) <==> AllChecked(section.items)
  {
    CountWhereAll(section.items, true);
    CountWhere(section.items, true)
  }

  /** The counter shown on the card: all items, ticked and unticked. */
  function TotalCountOf(section: ChecklistSection): (total: nat)
    ensures total == CountWhere(section.items, true) + CountWhere(section.items, false)
  {
    CheckedPlusUnchecked(section.items);
    |section.items|
  }

  /**
   * The counter never exceeds the total, and it reaches the total exactly when the
   * section is complete, for any consistent section and so after every toggle.
   */
  lemma CounterMatchesCompleted(section: ChecklistSection)
    requires Consistent(section)
    ensures CheckedCountOf(section) <= TotalCountOf(section)
    ensures CheckedCountOf(section) == TotalCountOf(section) <==> section.completed
  {
    CountWhereAll(section.items, true);
  }

  /** A toggle always leaves counter and badge in agreement. */
  lemma ToggleCounterMatchesCompleted(section: ChecklistSection, itemId: string)
    ensures CheckedCountOf(ToggleItem(section, itemId)) == TotalCountOf(ToggleItem(section, itemId))
            <==> ToggleItem(section, itemId).completed
  {
    CounterMatchesCompleted(ToggleItem(section, itemId));
  }

  /** Clicking the same item twice gives the original items back. */
  lemma ToggleTwiceRestoresItems(section: ChecklistSection, itemId: string)
    ensures ToggleItem(ToggleItem(section, itemId), itemId).items == section.items
  {
    var once := ToggleItem(section, itemId);
    var twice := ToggleItem(once, itemId);
    assert forall i :: 0 <= i < |section.items| ==> twice.items[i] == section.items[i];
  }

  /** ... and, for a section whose flag was already consistent, the original section. */
  lemma ToggleTwiceRestoresSection(section: ChecklistSection, itemId: string)
    requires Consistent(section)
    ensures ToggleItem(ToggleItem(section, itemId), itemId) == section
  {
    ToggleTwiceRestoresItems(section, itemId);
  }

  /** A click on an id no item carries changes no item; it only refreshes `completed`. */
  lemma ToggleUnknownId(section: ChecklistSection, itemId: string)
    requires forall i :: 0 <= i < |section.items| ==> section.items[i].id != itemId
    ensures ToggleItem(section, itemId).items == section.items
    ensures ToggleItem(section, itemId).completed == AllChecked(section.items)
  {
    UntouchedWithoutMatch(section.items, itemId);
  }

  /**
   * With unique ids, a click on an unticked item raises the counter by one and a click on a
   * ticked one lowers it by one.
   */
  lemma ToggleShiftsCounter(items: seq<ChecklistItem>, k: nat)
    requires k < |items|
    requires forall i :: 0 <= i < |items| && i != k ==> items[i].id != items[k].id
    ensures CountWhere(FlipMatching(items, items[k].id), true)
         == if items[k].checked then CountWhere(items, true) - 1 else CountWhere(items, true) + 1
  {
    FlipOnlyOne(items, k);
    CountWhereUpdate(items, k, ToggleOne(items[k], items[k].id), true);
  }

  /** With unique ids, a click changes only the clicked item. */
  lemma FlipOnlyOne(items: seq<ChecklistItem>, k: nat)
    requires k < |items|
    requires forall i :: 0 <= i < |items| && i != k ==> items[i].id != items[k].id
    ensures FlipMatching(items, items[k].id) == items[k := ToggleOne(items[k], items[k].id)]
  {
    var id := items[k].id;
    var flipped, updated := FlipMatching(items, id), items[k := ToggleOne(items[k], id)];
    forall i | 0 <= i < |items| ensures flipped[i] == updated[i] {
      if i != k {
        assert items[i].id != id;
      }
    }
  }

  /** Items without a matching id are not changed by a click. */
  lemma UntouchedWithoutMatch(items: seq<ChecklistItem>, itemId: string)
    requires forall i :: 0 <= i < |items| ==> items[i].id != itemId
    ensures FlipMatching(items, itemId) == items
  {
    assert forall i :: 0 <= i < |items| ==> FlipMatching(items, itemId)[i] == items[i];
  }
}

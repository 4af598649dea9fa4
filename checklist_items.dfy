/**
 * The checklist seen as one flat, ordered list of items (category, then section, then
 * item order), and counts over it. Both the rating engine and the section card count
 * checked and unchecked items; they share these definitions.
 */
module ChecklistItems {
  import opened Types

  /** Number of items whose `checked` flag equals `state`. */
  function CountWhere(items: seq<ChecklistItem>, state: bool): (n: nat)
    ensures n <= |items|
  {
    if items == [] then 0
    else CountWhere(items[..|items| - 1], state) + (if items[|items| - 1].checked == state then 1 else 0)
  }

  /** All items of a sequence of sections, in order. */
  function SectionItems(sections: seq<ChecklistSection>): seq<ChecklistItem>
  {
    if sections == [] then []
    else SectionItems(sections[..|sections| - 1]) + sections[|sections| - 1].items
  }

  /** All items of a checklist, in category/section/item order. */
  function Flatten(checklist: seq<ChecklistCategory>): seq<ChecklistItem>
  {
    if checklist == [] then []
    else Flatten(checklist[..|checklist| - 1]) + SectionItems(checklist[|checklist| - 1].sections)
  }

  /** The number U of the rating rules: unchecked items across the whole checklist. */
  function UncheckedCount(checklist: seq<ChecklistCategory>): nat
  {
    CountWhere(Flatten(checklist), false)
  }

  function CheckedCount(checklist: seq<ChecklistCategory>): nat
  {
    CountWhere(Flatten(checklist), true)
  }

  function TotalCount(checklist: seq<ChecklistCategory>): nat
  {
    |Flatten(checklist)|
  }

  /** Counting a sequence with one more item at the end. */
  lemma CountWhereSnoc(items: seq<ChecklistItem>, item: ChecklistItem, state: bool)
    ensures CountWhere(items + [item], state) == CountWhere(items, state) + (if item.checked == state then 1 else 0)
  {
    assert (items + [item])[..|items|] == items;
  }

  /** Replacing one item changes the count by the difference of the two items alone. */
  lemma CountWhereUpdate(items: seq<ChecklistItem>, k: nat, item: ChecklistItem, state: bool)
    requires k < |items|
    ensures CountWhere(items[k := item], state) + (if items[k].checked == state then 1 else 0)
         == CountWhere(items, state) + (if item.checked == state then 1 else 0)
  {
    var front, back := items[..k], items[k + 1..];
    assert items == front + [items[k]] + back;
    assert items[k := item] == front + [item] + back;
    CountWhereAppend(front + [items[k]], back, state);
    CountWhereAppend(front + [item], back, state);
    CountWhereSnoc(front, items[k], state);
    CountWhereSnoc(front, item, state);
  }

  /** Counting distributes over concatenation. */
  lemma {:induction false} CountWhereAppend(a: seq<ChecklistItem>, b: seq<ChecklistItem>, state: bool)
    ensures CountWhere(a + b, state) == CountWhere(a, state) + CountWhere(b, state)
  {
    if b != [] {
      var b' := b[..|b| - 1];
      assert (a + b)[..|a + b| - 1] == a + b';
      CountWhereAppend(a, b', state);
    } else {
      assert a + b == a;
    }
  }

  /** Every item is either checked or unchecked. */
  lemma {:induction false} CheckedPlusUnchecked(items: seq<ChecklistItem>)
    ensures CountWhere(items, true) + CountWhere(items, false) == |items|
  {
    if items != [] {
      CheckedPlusUnchecked(items[..|items| - 1]);
    }
  }

  /** All items carry `state` exactly when the count of such items is the length. */
  lemma {:induction false} CountWhereAll(items: seq<ChecklistItem>, state: bool)
    ensures CountWhere(items, state) == |items| <==> forall i :: 0 <= i < |items| ==> items[i].checked == state
  {
    if items != [] {
      var init := items[..|items| - 1];
      CountWhereAll(init, state);
      assert forall i :: 0 <= i < |init| ==> init[i] == items[i];
    }
  }

  /** Unchecked plus checked is the total item count of a checklist. */
  lemma UncheckedPlusCheckedIsTotal(checklist: seq<ChecklistCategory>)
    ensures UncheckedCount(checklist) + CheckedCount(checklist) == TotalCount(checklist)
  {
    CheckedPlusUnchecked(Flatten(checklist));
  }

  /** Flattening sections distributes over concatenation. */
  lemma {:induction false} SectionItemsAppend(a: seq<ChecklistSection>, b: seq<ChecklistSection>)
    ensures SectionItems(a + b) == SectionItems(a) + SectionItems(b)
  {
    if b != [] {
      var b' := b[..|b| - 1];
      assert (a + b)[..|a + b| - 1] == a + b';
      SectionItemsAppend(a, b');
    } else {
      assert a + b == a;
    }
  }

  /** Flattening a checklist distributes over concatenation. */
  lemma {:induction false} FlattenAppend(a: seq<ChecklistCategory>, b: seq<ChecklistCategory>)
    ensures Flatten(a + b) == Flatten(a) + Flatten(b)
  {
    if b != [] {
      var b' := b[..|b| - 1];
      assert (a + b)[..|a + b| - 1] == a + b';
      FlattenAppend(a, b');
    } else {
      assert a + b == a;
    }
  }

  /** Replacing section `k` changes the count by the difference of the two sections alone. */
  lemma {:induction false} ReplaceInSectionsCount(sections: seq<ChecklistSection>, k: nat, section: ChecklistSection, state: bool)
    requires k < |sections|
    ensures CountWhere(SectionItems(sections[k := section]), state) + CountWhere(sections[k].items, state)
         == CountWhere(SectionItems(sections), state) + CountWhere(section.items, state)
  {
    var n, updated := |sections|, sections[k := section];
    var init := sections[..n - 1];
    CountWhereAppend(SectionItems(init), sections[n - 1].items, state);
    if k == n - 1 {
      assert updated[..n - 1] == init;
      CountWhereAppend(SectionItems(init), section.items, state);
    } else {
      assert updated[..n - 1] == init[k := section];
      ReplaceInSectionsCount(init, k, section, state);
      CountWhereAppend(SectionItems(init[k := section]), sections[n - 1].items, state);
    }
  }

  /** Replacing category `k` changes the count by the difference of the two categories alone. */
  lemma {:induction false} ReplaceInChecklistCount(checklist: seq<ChecklistCategory>, k: nat, category: ChecklistCategory, state: bool)
    requires k < |checklist|
    ensures CountWhere(Flatten(checklist[k := category]), state) + CountWhere(SectionItems(checklist[k].sections), state)
         == CountWhere(Flatten(checklist), state) + CountWhere(SectionItems(category.sections), state)
  {
    var n, updated := |checklist|, checklist[k := category];
    var init := checklist[..n - 1];
    CountWhereAppend(Flatten(init), SectionItems(checklist[n - 1].sections), state);
    if k == n - 1 {
      assert updated[..n - 1] == init;
      CountWhereAppend(Flatten(init), SectionItems(category.sections), state);
    } else {
      assert updated[..n - 1] == init[k := category];
      ReplaceInChecklistCount(init, k, category, state);
      CountWhereAppend(Flatten(init[k := category]), SectionItems(checklist[n - 1].sections), state);
    }
  }
}

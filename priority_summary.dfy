/**
 * The priority-summary editor: four lists of free-text issues, one per urgency tier,
 * edited in place by setting an entry, appending an empty entry and splicing an entry out.
 */
module PrioritySummaryEditor {
  import opened Types

  /** The four tiers, named as the summary's keys. */
  datatype Level = Critical | High | Medium | Low

  /** A tier with entry `index` set to `value`. */
  function SetEntry(tier: seq<string>, index: nat, value: string): (updated: seq<string>)
    requires index < |tier|
    ensures |updated| == |tier| && updated[index] == value
    ensures forall j :: 0 <= j < |tier| && j != index ==> updated[j] == tier[j]
  {
    tier[..index] + [value] + tier[index + 1..]
  }

  /**
   * A tier after splicing out one entry at `index`: the entries before it keep their
   * positions, the ones after it move up by one; an index past the end removes nothing.
   */
  function Splice(tier: seq<string>, index: nat): (spliced: seq<string>)
    ensures index < |tier| ==> |spliced| == |tier| - 1
    ensures index >= |tier| ==> spliced == tier
    ensures forall j :: 0 <= j < |spliced| ==> spliced[j] == if j < index then tier[j] else tier[j + 1]
  {
    if index < |tier| then tier[..index] + tier[index + 1..] else tier
  }

  /** Splicing out an entry removes exactly that entry from the tier's contents. */
  lemma SpliceRemovesOne(tier: seq<string>, index: nat)
    requires index < |tier|
    ensures multiset(Splice(tier, index)) + multiset{tier[index]} == multiset(tier)
  {
    assert tier == tier[..index] + [tier[index]] + tier[index + 1..];
  }

  /** Adding an entry and then removing the entry at the new last index gives the tier back. */
  lemma AddThenRemoveLastRestores(tier: seq<string>)
    ensures Splice(tier + [""], |tier|) == tier
  {
    assert (tier + [""])[..|tier|] == tier;
  }

  /** Setting an entry to the value it already holds changes nothing. */
  lemma SetEntryUnchanged(tier: seq<string>, index: nat)
    requires index < |tier|
    ensures SetEntry(tier, index, tier[index]) == tier
  {
    assert tier == tier[..index] + [tier[index]] + tier[index + 1..];
  }

  /** The priority summary being edited; the badge of each tier shows its length. */
  class Editor {
    var critical: seq<string>
    var high: seq<string>
    var medium: seq<string>
    var low: seq<string>

    constructor (summary: PrioritySummary)
      ensures Summary() == summary
    {
      critical := summary.critical;
      high := summary.high;
      medium := summary.medium;
      low := summary.low;
    }

    /** The summary as a value, as the change callback receives it. */
    function Summary(): PrioritySummary
      reads this
    {
      PrioritySummary(critical, high, medium, low)
    }

    /** The list of one tier. */
    function Tier(level: Level): seq<string>
      reads this
    {
      match level
      case Critical => critical
      case High => high
      case Medium => medium
      case Low => low
    }

    /** Replaces one tier's list and no other. */
    method SetTier(level: Level, tier: seq<string>)
      modifies this
      ensures Tier(level) == tier
      ensures forall other :: other != level ==> Tier(other) == old(Tier(other))
    {
      match level
      case Critical => critical := tier;
      case High => high := tier;
      case Medium => medium := tier;
      case Low => low := tier;
    }

    /** Typing into entry `index` of a tier: that entry becomes `value`. */
    method UpdatePriority(level: Level, index: nat, value: string)
      requires index < |Tier(level)|
      modifies this
      ensures Tier(level) == SetEntry(old(Tier(level)), index, value)
      ensures forall other :: other != level ==> Tier(other) == old(Tier(other))
    {
      SetTier(level, SetEntry(Tier(level), index, value));
    }

    /** The add button of a tier: an empty entry goes at the end. */
    method AddPriority(level: Level)
      modifies this
      ensures Tier(level) == old(Tier(level)) + [""]
      ensures forall other :: other != level ==> Tier(other) == old(Tier(other))
    {
      SetTier(level, Tier(level) + [""]);
    }

    /** The remove button of entry `index`: one entry spliced out, none for an index past the end. */
    method RemovePriority(level: Level, index: nat)
      modifies this
      ensures Tier(level) == Splice(old(Tier(level)), index)
      ensures forall other :: other != level ==> Tier(other) == old(Tier(other))
    {
      SetTier(level, Splice(Tier(level), index));
    }
  }
}

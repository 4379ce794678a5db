/**
 * components/builder/steps/WorkHistoryStep.tsx: the work-history step of
 * the form. Each entry's item keeps an `isCurrent` flag (the "Current Job"
 * checkbox), and an effect keeps the entry's end date in step with it: a
 * checked box writes the sentinel "Current", an unchecked box clears the
 * sentinel to "". The flags travel with their entries when one is removed.
 */
module WorkHistoryForm {
  import opened ResumeTypes

  /** The end date the sync effect leaves behind for a given checkbox state. */
  function SyncedEndDate(isCurrent: bool, endDate: string): (r: string)
    ensures r == CURRENT <==> isCurrent
    ensures isCurrent ==> r == CURRENT
    ensures !isCurrent && endDate != CURRENT ==> r == endDate
    ensures !isCurrent && endDate == CURRENT ==> r == ""
  {
    if isCurrent then CURRENT
    else if endDate == CURRENT then ""
    else endDate
  }

  /** The entry `addWorkHistory` appends: every field empty. */
  function NewEntry(): (e: WorkEntry)
    ensures e.companyName == "" && e.role == "" && e.startDate == "" && e.endDate == ""
    ensures e.endDate != CURRENT
    ensures e.description == Some("")
  {
    WorkEntry("", "", "", "", Some(""))
  }

  /** Running the effect again changes nothing. */
  lemma SyncIdempotent(isCurrent: bool, endDate: string)
    ensures SyncedEndDate(isCurrent, SyncedEndDate(isCurrent, endDate)) == SyncedEndDate(isCurrent, endDate)
  {
  }

  /**
   * Ticking the box and then clearing it leaves an empty end date: a real
   * date entered before is not restored.
   */
  lemma CheckThenUncheckLosesDate(endDate: string)
    ensures SyncedEndDate(false, SyncedEndDate(true, endDate)) == ""
  {
  }

  /** An unticked box leaves a real date alone, so unticking is harmless when no sentinel is present. */
  lemma UncheckedKeepsRealDate(endDate: string)
    requires endDate != CURRENT
    ensures SyncedEndDate(false, endDate) == endDate
  {
  }

  class WorkHistoryFields {
    /** The `workHistory` field array. */
    var entries: seq<WorkEntry>
    /** One checkbox state per mounted item, in the same order. */
    var isCurrent: seq<bool>

    /** Every box is ticked exactly when its entry holds the "Current" sentinel. */
    ghost predicate Valid()
      reads this
    {
      |entries| == |isCurrent|
      && forall i :: 0 <= i < |entries| ==> (isCurrent[i] <==> entries[i].endDate == CURRENT)
    }

    /** Mounting the items: each box starts ticked iff its entry already ends with "Current". */
    constructor (initial: seq<WorkEntry>)
      ensures entries == initial
      ensures |isCurrent| == |initial|
      ensures forall i :: 0 <= i < |initial| ==> (isCurrent[i] <==> initial[i].endDate == CURRENT)
      ensures Valid()
    {
      entries := initial;
      isCurrent := seq(|initial|, i requires 0 <= i < |initial| => initial[i].endDate == CURRENT);
    }

    /** The effect of item `index`: writes the synced end date back into the entry. */
    method Sync(index: int)
      requires 0 <= index < |entries| == |isCurrent|
      modifies this
      ensures isCurrent == old(isCurrent)
      ensures entries == old(entries)[index := old(entries)[index].(
                endDate := SyncedEndDate(isCurrent[index], old(entries)[index].endDate))]
    {
      var e := entries[index];
      if isCurrent[index] {
        entries := entries[index := e.(endDate := CURRENT)];
      } else if e.endDate == CURRENT {
        entries := entries[index := e.(endDate := "")];
      }
    }

    method AddWorkHistory()
      requires Valid()
      modifies this
      ensures entries == old(entries) + [NewEntry()]
      ensures isCurrent == old(isCurrent) + [false]
      ensures Valid()
    {
      entries := entries + [NewEntry()];
      isCurrent := isCurrent + [false];
    }

    /** The trash button of item `index`: drops the entry and its checkbox, keeping the others in order. */
    method Remove(index: int)
      requires Valid()
      requires 0 <= index < |entries|
      modifies this
      ensures entries == old(entries)[..index] + old(entries)[index + 1..]
      ensures isCurrent == old(isCurrent)[..index] + old(isCurrent)[index + 1..]
      ensures Valid()
    {
      entries := entries[..index] + entries[index + 1..];
      isCurrent := isCurrent[..index] + isCurrent[index + 1..];
      assert forall i :: 0 <= i < |entries| ==>
        entries[i] == old(entries)[if i < index then i else i + 1] &&
        isCurrent[i] == old(isCurrent)[if i < index then i else i + 1];
    }

    /** Ticking or clearing the box of item `index`, followed by its effect. */
    method SetCurrent(index: int, checked: bool)
      requires Valid()
      requires 0 <= index < |entries|
      modifies this
      ensures isCurrent == old(isCurrent)[index := checked]
      ensures entries == old(entries)[index := old(entries)[index].(
                endDate := SyncedEndDate(checked, old(entries)[index].endDate))]
      ensures checked ==> entries[index].endDate == CURRENT
      ensures !checked && old(isCurrent)[index] ==> entries[index].endDate == ""
      ensures !checked && !old(isCurrent)[index] ==> entries == old(entries)
      ensures Valid()
    {
      isCurrent := isCurrent[index := checked];
      Sync(index);
    }

    /**
     * Typing into the end-date input, which is shown only while the box is
     * clear; the effect then runs, so the sentinel itself cannot be typed in.
     */
    method EditEndDate(index: int, value: string)
      requires Valid()
      requires 0 <= index < |entries| && !isCurrent[index]
      modifies this
      ensures isCurrent == old(isCurrent)
      ensures entries == old(entries)[index := old(entries)[index].(endDate := SyncedEndDate(false, value))]
      ensures value != CURRENT ==> entries[index].endDate == value
      ensures Valid()
    {
      entries := entries[index := entries[index].(endDate := value)];
      Sync(index);
    }
  }
}

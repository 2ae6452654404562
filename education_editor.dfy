/**
 * The education editor of the resume page: the parent owns the list; the
 * editor keeps the modal's visibility and the entry being edited. Opening
 * an entry for editing first hides the modal and re-opens it from a timer.
 */
module EducationEditor {
  import opened Wrappers
  import opened Types
  import opened Strings
  import ListOps

  /** The degree choices, each shown with its own value as label. */
  const DegreeOptions: seq<string> := ["小学", "初中", "高中", "专科", "学士", "硕士", "博士"]

  /** `education.filter(edu => edu.id !== id)` */
  function RemoveById(es: seq<Education>, id: string): (r: seq<Education>)
    ensures |r| <= |es|
    ensures forall i :: 0 <= i < |r| ==> r[i].id != id && r[i] in es
    ensures forall i :: 0 <= i < |es| && es[i].id != id ==> es[i] in r
    ensures (forall i :: 0 <= i < |es| ==> es[i].id != id) ==> r == es
  {
    var keep := (e: Education) => e.id != id;
    if forall i :: 0 <= i < |es| ==> keep(es[i]) then
      ListOps.FilterKeepsAll(es, keep);
      ListOps.Filter(es, keep)
    else
      ListOps.Filter(es, keep)
  }

  lemma RemoveByIdConcat(a: seq<Education>, b: seq<Education>, id: string)
    ensures RemoveById(a + b, id) == RemoveById(a, id) + RemoveById(b, id)
  {
    ListOps.FilterConcat(a, b, (e: Education) => e.id != id);
  }

  /** `values.id || \`edu-${now}\``; a form without an id field reads as `""`. */
  function NewId(valuesId: string, now: nat): (id: string)
    ensures id != ""
    ensures valuesId != "" ==> id == valuesId
    ensures valuesId == "" ==> id == "edu-" + NatToString(now)
  {
    if valuesId != "" then valuesId else "edu-" + NatToString(now)
  }

  /**
   * The list `handleSave` hands to the parent: when editing, every entry
   * with the edited id becomes a copy of the form values; otherwise the
   * values are appended with their id defaulted.
   */
  function Saved(es: seq<Education>, editing: Option<Education>, values: Education, now: nat)
    : (r: seq<Education>)
    ensures editing.Some? ==> |r| == |es| && forall i :: 0 <= i < |es| ==>
      r[i] == (if es[i].id == editing.value.id then values else es[i])
    ensures editing.None? ==> r == es + [values.(id := NewId(values.id, now))]
    ensures editing.None? ==> r[|es|].id != ""
  {
    match editing
    case Some(e) => ListOps.ReplaceWhere(es, (x: Education) => x.id == e.id, values)
    case None => es + [values.(id := NewId(values.id, now))]
  }

  class Editor {
    var modalVisible: bool
    var editing: Option<Education>
    /** Copies of the entries whose 100 ms re-open timers have not fired yet, oldest first. */
    var pendingEdits: seq<Education>

    constructor ()
      ensures !modalVisible && editing == None && pendingEdits == []
    {
      modalVisible := false;
      editing := None;
      pendingEdits := [];
    }

    method AddClick()
      modifies this`modalVisible, this`editing
      ensures modalVisible && editing == None
    {
      editing := None;
      modalVisible := true;
    }

    /** A missing entry is ignored; otherwise the modal closes and a timer is armed. */
    method EditClick(e: Option<Education>)
      modifies this`modalVisible, this`pendingEdits
      ensures e.None? ==> modalVisible == old(modalVisible) && pendingEdits == old(pendingEdits)
      ensures e.Some? ==> !modalVisible && pendingEdits == old(pendingEdits) + [e.value]
    {
      if e.None? {
        return;
      }
      modalVisible := false;
      pendingEdits := pendingEdits + [e.value];
    }

    /** The oldest pending timer fires: the copy becomes the edited entry and the modal opens. */
    method EditTimerFires()
      requires pendingEdits != []
      modifies this
      ensures editing == Some(old(pendingEdits)[0]) && modalVisible
      ensures pendingEdits == old(pendingEdits)[1..]
    {
      editing := Some(pendingEdits[0]);
      modalVisible := true;
      pendingEdits := pendingEdits[1..];
    }

    method DeleteClick(es: seq<Education>, id: string) returns (updated: seq<Education>)
      ensures updated == RemoveById(es, id)
    {
      updated := RemoveById(es, id);
    }

    method Save(es: seq<Education>, values: Education, now: nat) returns (updated: seq<Education>)
      modifies this`modalVisible, this`editing
      ensures updated == Saved(es, old(editing), values, now)
      ensures !modalVisible && editing == None
    {
      updated := Saved(es, editing, values, now);
      modalVisible := false;
      editing := None;
    }

    method Cancel()
      modifies this`modalVisible, this`editing
      ensures !modalVisible && editing == None
    {
      modalVisible := false;
      editing := None;
    }
  }
}

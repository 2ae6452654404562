/**
 * The work-experience editor of the resume page: a list the parent owns
 * (`experiences`, changed only through `onUpdateExperiences`) and a modal
 * with its own state, the experience being edited and the achievement
 * input boxes.
 */
module ExperienceEditor {
  import opened Wrappers
  import opened Types
  import opened Strings
  import ListOps

  /** `experiences.filter(exp => exp.id !== id)` */
  function RemoveById(es: seq<Experience>, id: string): (r: seq<Experience>)
    ensures |r| <= |es|
    ensures forall i :: 0 <= i < |r| ==> r[i].id != id && r[i] in es
    ensures forall i :: 0 <= i < |es| && es[i].id != id ==> es[i] in r
    ensures (forall i :: 0 <= i < |es| ==> es[i].id != id) ==> r == es
  {
    var keep := (e: Experience) => e.id != id;
    if forall i :: 0 <= i < |es| ==> keep(es[i]) then
      ListOps.FilterKeepsAll(es, keep);
      ListOps.Filter(es, keep)
    else
      ListOps.Filter(es, keep)
  }

  /** Deleting works piecewise on the list, so the survivors keep their order. */
  lemma RemoveByIdConcat(a: seq<Experience>, b: seq<Experience>, id: string)
    ensures RemoveById(a + b, id) == RemoveById(a, id) + RemoveById(b, id)
  {
    ListOps.FilterConcat(a, b, (e: Experience) => e.id != id);
  }

  /** `achievementInputs.filter(item => item.trim())`: the non-blank inputs, in order. */
  function NonBlank(inputs: seq<string>): (r: seq<string>)
    ensures forall i :: 0 <= i < |r| ==> !IsBlank(r[i]) && r[i] in inputs
    ensures forall i :: 0 <= i < |inputs| && !IsBlank(inputs[i]) ==> inputs[i] in r
    ensures (forall i :: 0 <= i < |inputs| ==> !IsBlank(inputs[i])) ==> r == inputs
  {
    var keep := (s: string) => !IsBlank(s);
    if forall i :: 0 <= i < |inputs| ==> keep(inputs[i]) then
      ListOps.FilterKeepsAll(inputs, keep);
      ListOps.Filter(inputs, keep)
    else
      ListOps.Filter(inputs, keep)
  }

  /**
   * The list `handleSave` hands to the parent. The saved entry is the form's
   * values with the achievements replaced by the non-blank inputs; when
   * editing it replaces every entry with the edited id, otherwise it is
   * appended.
   */
  function Saved(es: seq<Experience>, editing: Option<Experience>, values: Experience, inputs: seq<string>)
    : (r: seq<Experience>)
    ensures editing.Some? ==> |r| == |es| && forall i :: 0 <= i < |es| ==>
      r[i] == (if es[i].id == editing.value.id then values.(achievements := NonBlank(inputs)) else es[i])
    ensures editing.None? ==> r == es + [values.(achievements := NonBlank(inputs))]
  {
    var entry := values.(achievements := NonBlank(inputs));
    match editing
    case Some(e) => ListOps.ReplaceWhere(es, (x: Experience) => x.id == e.id, entry)
    case None => es + [entry]
  }

  /** The default `id` of the blank entry the add dialog starts from: `exp-<Date.now()>`. */
  function NewItemId(now: nat): (id: string)
    ensures |id| > 4 && id[..4] == "exp-"
  {
    "exp-" + NatToString(now)
  }

  class Editor {
    var modalVisible: bool
    var editing: Option<Experience>
    var achievementInputs: seq<string>

    constructor ()
      ensures !modalVisible && editing == None && achievementInputs == []
    {
      modalVisible := false;
      editing := None;
      achievementInputs := [];
    }

    method AddClick()
      modifies this
      ensures modalVisible && editing == None && achievementInputs == []
    {
      editing := None;
      achievementInputs := [];
      modalVisible := true;
    }

    /** Editing loads the experience and its achievements into the inputs. */
    method EditClick(e: Experience)
      modifies this
      ensures modalVisible && editing == Some(e) && achievementInputs == e.achievements
    {
      editing := Some(e);
      achievementInputs := e.achievements;
      modalVisible := true;
    }

    /** `handleDeleteClick`: the list for `onUpdateExperiences`; the modal state is untouched. */
    method DeleteClick(es: seq<Experience>, id: string) returns (updated: seq<Experience>)
      ensures updated == RemoveById(es, id)
    {
      updated := RemoveById(es, id);
    }

    method Save(es: seq<Experience>, values: Experience) returns (updated: seq<Experience>)
      modifies this
      ensures updated == Saved(es, old(editing), values, old(achievementInputs))
      ensures !modalVisible && editing == None && achievementInputs == []
    {
      updated := Saved(es, editing, values, achievementInputs);
      modalVisible := false;
      editing := None;
      achievementInputs := [];
    }

    method Cancel()
      modifies this
      ensures !modalVisible && editing == None && achievementInputs == []
    {
      modalVisible := false;
      editing := None;
      achievementInputs := [];
    }

    method AddAchievementInput()
      modifies this`achievementInputs
      ensures achievementInputs == old(achievementInputs) + [""]
    {
      achievementInputs := achievementInputs + [""];
    }

    /** Called from the input box at `index`, which therefore exists. */
    method UpdateAchievement(index: nat, value: string)
      requires index < |achievementInputs|
      modifies this`achievementInputs
      ensures |achievementInputs| == |old(achievementInputs)| && achievementInputs[index] == value
      ensures forall j :: 0 <= j < |achievementInputs| && j != index ==>
        achievementInputs[j] == old(achievementInputs)[j]
    {
      achievementInputs := ListOps.SetAt(achievementInputs, index, value);
    }

    method RemoveAchievementInput(index: int)
      modifies this`achievementInputs
      ensures achievementInputs == ListOps.RemoveAt(old(achievementInputs), index)
    {
      achievementInputs := ListOps.RemoveAt(achievementInputs, index);
    }
  }

  /** Blank inputs never reach the saved entry, whatever the user typed. */
  lemma SavedHasNoBlankAchievements(es: seq<Experience>, editing: Option<Experience>, values: Experience,
                                    inputs: seq<string>, k: nat)
    requires k < |Saved(es, editing, values, inputs)|
    requires editing.None? ==> k == |es|
    requires editing.Some? ==> es[k].id == editing.value.id
    ensures forall i :: 0 <= i < |Saved(es, editing, values, inputs)[k].achievements| ==>
      !IsBlank(Saved(es, editing, values, inputs)[k].achievements[i])
  {
  }
}

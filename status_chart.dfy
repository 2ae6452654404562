/**
 * The pie chart of project statuses: one counter per status, incremented
 * in a pass over the projects, then the four labelled slices with the
 * empty ones dropped.
 */
module StatusChart {
  import opened Types
  import opened ProjectLabels
  import ListOps

  datatype Slice = Slice(value: nat, name: string)

  /** The four slices before empty ones are dropped. */
  function AllSlices(ps: seq<Project>): (r: seq<Slice>)
    ensures |r| == 4
    ensures forall k :: 0 <= k < 4 ==> r[k] == Slice(CountStatus(ps, ProjectStatuses[k]), StatusLabels[k])
  {
    seq(4, k requires 0 <= k < 4 => Slice(CountStatus(ps, ProjectStatuses[k]), StatusLabels[k]))
  }

  predicate NonEmpty(s: Slice)
  {
    s.value > 0
  }

  /** The chart data as a function of the projects. */
  function StatusData(ps: seq<Project>): seq<Slice>
  {
    ListOps.Filter(AllSlices(ps), NonEmpty)
  }

  /** `getStatusData`: the counting loop followed by the filter. */
  method GetStatusData(projects: seq<Project>) returns (data: seq<Slice>)
    ensures data == StatusData(projects)
  {
    var planning, inProgress, completed, onHold := 0, 0, 0, 0;
    for i := 0 to |projects|
      invariant planning == CountStatus(projects[..i], "planning")
      invariant inProgress == CountStatus(projects[..i], "in-progress")
      invariant completed == CountStatus(projects[..i], "completed")
      invariant onHold == CountStatus(projects[..i], "on-hold")
    {
      assert projects[..i + 1] == projects[..i] + [projects[i]];
      CountStatusAppend(projects[..i], projects[i], "planning");
      CountStatusAppend(projects[..i], projects[i], "in-progress");
      CountStatusAppend(projects[..i], projects[i], "completed");
      CountStatusAppend(projects[..i], projects[i], "on-hold");
      match projects[i].status
      case "planning" => planning := planning + 1;
      case "in-progress" => inProgress := inProgress + 1;
      case "completed" => completed := completed + 1;
      case "on-hold" => onHold := onHold + 1;
      case _ =>
    }
    assert projects[..|projects|] == projects;
    var all := [Slice(planning, "规划中"), Slice(inProgress, "进行中"),
                Slice(completed, "已完成"), Slice(onHold, "暂停中")];
    assert all == AllSlices(projects);
    data := ListOps.Filter(all, NonEmpty);
  }

  function SumValues(s: seq<Slice>): nat
    decreases |s|
  {
    if |s| == 0 then 0 else s[0].value + SumValues(s[1..])
  }

  /** Dropping the empty slices does not change the total. */
  lemma {:induction false} SumIgnoresEmpty(s: seq<Slice>)
    ensures SumValues(ListOps.Filter(s, NonEmpty)) == SumValues(s)
    decreases |s|
  {
    if |s| > 0 {
      SumIgnoresEmpty(s[1..]);
    }
  }

  /** Outside the four statuses a project counts towards none of them. */
  lemma {:induction false} FourCountsCover(ps: seq<Project>)
    requires forall i :: 0 <= i < |ps| ==> ps[i].status in ProjectStatuses
    ensures CountStatus(ps, "planning") + CountStatus(ps, "in-progress")
      + CountStatus(ps, "completed") + CountStatus(ps, "on-hold") == |ps|
    decreases |ps|
  {
    if |ps| > 0 {
      var rest := ps[1..];
      assert forall i :: 0 <= i < |rest| ==> rest[i].status in ProjectStatuses by {
        forall i | 0 <= i < |rest|
          ensures rest[i].status in ProjectStatuses
        {
          assert rest[i] == ps[i + 1];
        }
      }
      FourCountsCover(rest);
      var s := ps[0].status;
      assert s == "planning" || s == "in-progress" || s == "completed" || s == "on-hold";
    }
  }

  /** With every status in the domain, the slice values add up to the number of projects. */
  lemma StatusDataSums(ps: seq<Project>)
    requires forall i :: 0 <= i < |ps| ==> ps[i].status in ProjectStatuses
    ensures SumValues(StatusData(ps)) == |ps|
  {
    var all := AllSlices(ps);
    SumIgnoresEmpty(all);
    SumOfFour(all);
    FourCountsCover(ps);
  }

  lemma SumOfFour(s: seq<Slice>)
    requires |s| == 4
    ensures SumValues(s) == s[0].value + s[1].value + s[2].value + s[3].value
  {
    var t1, t2, t3 := s[1..], s[2..], s[3..];
    assert t1[1..] == t2 && t2[1..] == t3 && t3[1..] == [];
    assert SumValues(t3) == s[3].value + SumValues([]);
    assert SumValues(t2) == s[2].value + SumValues(t3);
    assert SumValues(t1) == s[1].value + SumValues(t2);
  }

  /** No slice is empty, there are at most four, and each carries its status's count. */
  lemma StatusDataShape(ps: seq<Project>)
    ensures |StatusData(ps)| <= 4
    ensures forall i :: 0 <= i < |StatusData(ps)| ==> StatusData(ps)[i].value > 0
    ensures forall k :: 0 <= k < 4 ==>
      (Slice(CountStatus(ps, ProjectStatuses[k]), StatusLabels[k]) in StatusData(ps) <==> CountStatus(ps, ProjectStatuses[k]) > 0)
  {
    var all := AllSlices(ps);
    forall k | 0 <= k < 4
      ensures Slice(CountStatus(ps, ProjectStatuses[k]), StatusLabels[k]) in StatusData(ps) ==> CountStatus(ps, ProjectStatuses[k]) > 0
    {
      var s := Slice(CountStatus(ps, ProjectStatuses[k]), StatusLabels[k]);
      if s in StatusData(ps) {
        var i :| 0 <= i < |StatusData(ps)| && StatusData(ps)[i] == s;
        assert NonEmpty(StatusData(ps)[i]);
      }
    }
  }

  /** The slices keep the fixed order planning, in-progress, completed, on-hold. */
  lemma StatusDataOrder(ps: seq<Project>)
    ensures StatusData(ps) ==
      ListOps.Filter([Slice(CountStatus(ps, "planning"), "规划中")], NonEmpty)
      + ListOps.Filter([Slice(CountStatus(ps, "in-progress"), "进行中")], NonEmpty)
      + ListOps.Filter([Slice(CountStatus(ps, "completed"), "已完成")], NonEmpty)
      + ListOps.Filter([Slice(CountStatus(ps, "on-hold"), "暂停中")], NonEmpty)
  {
    var all := AllSlices(ps);
    assert all == [all[0]] + [all[1]] + [all[2]] + [all[3]];
    ListOps.FilterConcat([all[0]] + [all[1]] + [all[2]], [all[3]], NonEmpty);
    ListOps.FilterConcat([all[0]] + [all[1]], [all[2]], NonEmpty);
    ListOps.FilterConcat([all[0]], [all[1]], NonEmpty);
  }

  /** No projects, no slices. */
  lemma StatusDataEmpty()
    ensures StatusData([]) == []
  {
    var all := AllSlices([]);
    ListOps.FilterKeepsNone(all, NonEmpty);
  }
}

/**
 * The dashboard: four statistics over the project list and the choice
 * between the project cards and the empty state.
 */
module Dashboard {
  import opened Types
  import ListOps
  import ProjectCard

  predicate IsInProgress(p: Project)
  {
    p.status == "in-progress"
  }

  predicate IsCompleted(p: Project)
  {
    p.status == "completed"
  }

  /** `projects.filter(p => p.status === status).length` agrees with the status count. */
  lemma {:induction false} FilterCountsStatus(ps: seq<Project>, status: string, keep: Project -> bool)
    requires forall p :: keep(p) <==> p.status == status
    ensures |ListOps.Filter(ps, keep)| == CountStatus(ps, status)
    decreases |ps|
  {
    if |ps| > 0 {
      FilterCountsStatus(ps[1..], status, keep);
    }
  }

  /** The four cards: total, in progress, completed, and the number of files. */
  datatype Statistics = Statistics(total: nat, inProgress: nat, completed: nat, files: nat)

  /** `projects.reduce((total, p) => total + (p.documents?.length || 0), 0)`, folding from the left. */
  function FileTotal(ps: seq<Project>): nat
    decreases |ps|
  {
    if |ps| == 0 then 0 else FileTotal(ps[..|ps| - 1]) + ProjectCard.FileCount(ps[|ps| - 1])
  }

  function Stats(ps: seq<Project>): (s: Statistics)
    ensures s.total == |ps|
  {
    Statistics(|ps|, |ListOps.Filter(ps, IsInProgress)|, |ListOps.Filter(ps, IsCompleted)|, FileTotal(ps))
  }

  /** The status counts are the true counts, and together they never exceed the total. */
  lemma StatsCounts(ps: seq<Project>)
    ensures Stats(ps).inProgress == CountStatus(ps, "in-progress")
    ensures Stats(ps).completed == CountStatus(ps, "completed")
    ensures Stats(ps).inProgress + Stats(ps).completed <= Stats(ps).total
  {
    FilterCountsStatus(ps, "in-progress", IsInProgress);
    FilterCountsStatus(ps, "completed", IsCompleted);
    CountStatusPair(ps, "in-progress", "completed");
  }

  /** The file total is additive over concatenation. */
  lemma {:induction false} FileTotalConcat(a: seq<Project>, b: seq<Project>)
    ensures FileTotal(a + b) == FileTotal(a) + FileTotal(b)
    decreases |b|
  {
    if |b| == 0 {
      assert a + b == a;
    } else {
      assert (a + b)[..|a + b| - 1] == a + b[..|b| - 1];
      FileTotalConcat(a, b[..|b| - 1]);
    }
  }

  /** No file is counted exactly when no project has a non-empty document list. */
  lemma {:induction false} FileTotalZero(ps: seq<Project>)
    ensures FileTotal(ps) == 0 <==> forall i :: 0 <= i < |ps| ==> ProjectCard.FileCount(ps[i]) == 0
    decreases |ps|
  {
    if |ps| > 0 {
      var init := ps[..|ps| - 1];
      FileTotalZero(init);
      if FileTotal(ps) == 0 {
        forall i | 0 <= i < |ps|
          ensures ProjectCard.FileCount(ps[i]) == 0
        {
          if i < |ps| - 1 {
            assert ps[i] == init[i];
          }
        }
      }
      if forall i :: 0 <= i < |ps| ==> ProjectCard.FileCount(ps[i]) == 0 {
        forall i | 0 <= i < |init|
          ensures ProjectCard.FileCount(init[i]) == 0
        {
          assert init[i] == ps[i];
        }
      }
    }
  }

  /** What the recent-projects card shows. */
  datatype ProjectsPanel = Cards(projects: seq<Project>) | EmptyState

  function Panel(ps: seq<Project>): (v: ProjectsPanel)
    ensures v.Cards? <==> |ps| > 0
    ensures v.Cards? ==> v.projects == ps
  {
    if |ps| > 0 then Cards(ps) else EmptyState
  }
}

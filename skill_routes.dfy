/**
 * The `/api/skills` handlers over the `skills` table: creation with
 * defaults, the `COALESCE` update, the two orderings and the per-category
 * counts.
 */
module SkillRoutes {
  import opened Wrappers
  import opened Strings
  import opened Db
  import Types
  import Sorting
  import ListOps


  const RequiredMessage := "Name and category are required"
  const NotFoundMessage := "Skill not found"
  const CreateFailed := "Failed to create skill"
  const UpdateFailed := "Failed to update skill"

  datatype SkillRow = SkillRow(name: string, category: string, level: string, years: int,
                               description: string, createdAt: string, updatedAt: string)

  /** A request body; an omitted property is `None`. */
  datatype SkillRequest = SkillRequest(name: Option<string>, category: Option<string>, level: Option<string>,
                                       years: Option<int>, description: Option<string>)

  /** One `/categories` result row. */
  datatype CategoryCount = CategoryCount(category: string, count: nat)

  predicate RowChecks(row: SkillRow)
  {
    row.level in Types.SkillLevels
  }

  /** The row POST inserts, with the destructuring defaults. */
  function NewRow(req: SkillRequest, now: string): SkillRow
    requires req.name.Some? && req.category.Some?
  {
    SkillRow(req.name.value, req.category.value, req.level.GetOr("intermediate"), req.years.GetOr(0),
             req.description.GetOr(""), now, now)
  }

  /** The row PUT leaves behind: every column coalesced, `updated_at` always set. */
  function Merged(row: SkillRow, req: SkillRequest, now: string): SkillRow
  {
    SkillRow(req.name.GetOr(row.name), req.category.GetOr(row.category), req.level.GetOr(row.level),
             req.years.GetOr(row.years), req.description.GetOr(row.description), row.createdAt, now)
  }

  /** A supplied `years` replaces the old value, 0 included; only an omitted one keeps it. */
  lemma MergedYears(row: SkillRow, req: SkillRequest, now: string)
    ensures req.years == Some(0) ==> Merged(row, req, now).years == 0
    ensures req.years.None? ==> Merged(row, req, now).years == row.years
  {
  }

  /** A PUT that supplies nothing changes only `updated_at`. */
  lemma MergedEmptyRequest(row: SkillRow, now: string)
    ensures Merged(row, SkillRequest(None, None, None, None, None), now) == row.(updatedAt := now)
  {
  }

  lemma MergedIdempotent(row: SkillRow, req: SkillRequest, t1: string, t2: string)
    ensures Merged(Merged(row, req, t1), req, t2) == Merged(row, req, t2)
  {
  }

  lemma NewRowDefaults(req: SkillRequest, now: string)
    requires req.name.Some? && req.category.Some? && req.level.None? && req.years.None? && req.description.None?
    ensures var r := NewRow(req, now);
      r.level == "intermediate" && r.years == 0 && r.description == "" && RowChecks(r)
  {
  }

  // ------------------------------------------------------------ orderings

  function Category(e: (string, SkillRow)): string { e.1.category }
  function Name(e: (string, SkillRow)): string { e.1.name }
  function Level(e: (string, SkillRow)): string { e.1.level }
  function Years(e: (string, SkillRow)): int { e.1.years }

  /** `ORDER BY category, name` */
  function CategoryThenName(): ((string, SkillRow), (string, SkillRow)) -> bool
  {
    Sorting.Then(Sorting.KeyAsc(Category), Sorting.KeyAsc(Name))
  }

  /** `ORDER BY level DESC, years DESC`, with `level` compared as text. */
  function LevelTextThenYears(): ((string, SkillRow), (string, SkillRow)) -> bool
  {
    Sorting.Then(Sorting.KeyDesc(Level), Sorting.IntDesc(Years))
  }

  /** The level's rank from beginner (0) to expert (3); outside the domain, -1. */
  function LevelRank(e: (string, SkillRow)): int
  {
    var l := e.1.level;
    if l == "expert" then 3 else if l == "advanced" then 2
    else if l == "intermediate" then 1 else if l == "beginner" then 0 else -1
  }

  /** Strongest level first, then most years. */
  function LevelRankThenYears(): ((string, SkillRow), (string, SkillRow)) -> bool
  {
    Sorting.Then(Sorting.IntDesc(LevelRank), Sorting.IntDesc(Years))
  }

  /**
   * Compared as text, `advanced` and `expert` sort below `beginner` and
   * `intermediate`: a beginner skill is listed before an advanced one.
   */
  lemma LevelTextMisorders(beginner: (string, SkillRow), advanced: (string, SkillRow))
    requires beginner.1.level == "beginner" && advanced.1.level == "advanced"
    ensures LevelTextThenYears()(beginner, advanced)
    ensures !LevelTextThenYears()(advanced, beginner)
  {
    assert StrLe("advanced", "beginner");
    assert !StrLe("beginner", "advanced");
    assert Level(beginner) == "beginner" && Level(advanced) == "advanced";
    assert Sorting.KeyDesc(Level)(beginner, advanced);
    assert !Sorting.KeyDesc(Level)(advanced, beginner);
  }

  /** Ranked, each level sorts strictly before every weaker one. */
  lemma LevelRankOrders(stronger: (string, SkillRow), weaker: (string, SkillRow))
    requires LevelRank(weaker) < LevelRank(stronger)
    ensures LevelRankThenYears()(stronger, weaker)
    ensures !LevelRankThenYears()(weaker, stronger)
  {
  }

  // --------------------------------------------------------- counting

  /** The ids of the rows among `done` whose category is `c`. */
  function KeysOf(rows: map<string, SkillRow>, done: set<string>, c: string): set<string>
  {
    set k | k in done && k in rows && rows[k].category == c
  }

  /** `COUNT(*)` of the rows in category `c`. */
  function CategorySize(rows: map<string, SkillRow>, c: string): nat
  {
    |KeysOf(rows, rows.Keys, c)|
  }

  function CountOf(c: CategoryCount): nat { c.count }
  function NameOf(c: CategoryCount): string { c.category }
  function CountKey(c: CategoryCount): int { c.count }

  /** The counts so far cover exactly the rows in `done`, one entry per category. */
  predicate Counted(counts: seq<CategoryCount>, rows: map<string, SkillRow>, done: set<string>)
  {
    done <= rows.Keys && DistinctCategories(counts) && CountsMatch(counts, rows, done)
    && Covers(counts, rows, done) && Sorting.SumOf(counts, CountOf) == |done|
  }

  predicate DistinctCategories(counts: seq<CategoryCount>)
  {
    forall i, j :: 0 <= i < j < |counts| ==> counts[i].category != counts[j].category
  }

  predicate CountsMatch(counts: seq<CategoryCount>, rows: map<string, SkillRow>, done: set<string>)
  {
    forall i :: 0 <= i < |counts| ==> counts[i].count == |KeysOf(rows, done, counts[i].category)| && counts[i].count > 0
  }

  predicate Covers(counts: seq<CategoryCount>, rows: map<string, SkillRow>, done: set<string>)
    requires done <= rows.Keys
  {
    forall k :: k in done ==> exists i :: 0 <= i < |counts| && counts[i].category == rows[k].category
  }

  /** One more row into its category's tally. */
  function Tally(counts: seq<CategoryCount>, c: string): seq<CategoryCount>
  {
    match ListOps.FindIndex(counts, (x: CategoryCount) => x.category == c)
    case Some(i) => counts[i := CategoryCount(c, counts[i].count + 1)]
    case None => counts + [CategoryCount(c, 1)]
  }

  lemma KeysOfAdd(rows: map<string, SkillRow>, done: set<string>, k: string, c: string)
    requires k in rows && k !in done
    ensures |KeysOf(rows, done + {k}, c)| == |KeysOf(rows, done, c)| + (if rows[k].category == c then 1 else 0)
  {
    if rows[k].category == c {
      assert KeysOf(rows, done + {k}, c) == KeysOf(rows, done, c) + {k};
    } else {
      assert KeysOf(rows, done + {k}, c) == KeysOf(rows, done, c);
    }
  }

  lemma {:induction false} SumOfUpdate(counts: seq<CategoryCount>, i: nat, c: string)
    requires i < |counts|
    ensures Sorting.SumOf(counts[i := CategoryCount(c, counts[i].count + 1)], CountOf) == Sorting.SumOf(counts, CountOf) + 1
    decreases |counts|
  {
    if i > 0 {
      SumOfUpdate(counts[1..], i - 1, c);
      assert counts[i := CategoryCount(c, counts[i].count + 1)][1..] == counts[1..][i - 1 := CategoryCount(c, counts[i].count + 1)];
    }
  }

  lemma {:induction false} SumOfAppend(counts: seq<CategoryCount>, x: CategoryCount)
    ensures Sorting.SumOf(counts + [x], CountOf) == Sorting.SumOf(counts, CountOf) + x.count
    decreases |counts|
  {
    if |counts| == 0 {
      assert ([] + [x])[1..] == [];
    } else {
      assert (counts + [x])[1..] == counts[1..] + [x];
      SumOfAppend(counts[1..], x);
    }
  }

  lemma TallyCounted(counts: seq<CategoryCount>, rows: map<string, SkillRow>, done: set<string>, k: string)
    requires Counted(counts, rows, done) && k in rows && k !in done
    ensures Counted(Tally(counts, rows[k].category), rows, done + {k})
  {
    var c := rows[k].category;
    match ListOps.FindIndex(counts, (x: CategoryCount) => x.category == c)
    case Some(i) => TallyExisting(counts, rows, done, k, i);
    case None => TallyNew(counts, rows, done, k);
  }

  lemma TallyExisting(counts: seq<CategoryCount>, rows: map<string, SkillRow>, done: set<string>, k: string, i: nat)
    requires Counted(counts, rows, done) && k in rows && k !in done
    requires i < |counts| && counts[i].category == rows[k].category
    ensures Counted(counts[i := CategoryCount(rows[k].category, counts[i].count + 1)], rows, done + {k})
  {
    var c := rows[k].category;
    var r := counts[i := CategoryCount(c, counts[i].count + 1)];
    var done' := done + {k};
    ExistingDistinct(counts, i, c);
    ExistingCounts(counts, rows, done, k, i);
    SumOfUpdate(counts, i, c);
    assert |done'| == |done| + 1;
    forall j | 0 <= j < |counts|
      ensures r[j].category == counts[j].category
    {
    }
    assert r[i].category == c;
    TallyCovers(counts, r, rows, done, k);
    assert done' <= rows.Keys && Sorting.SumOf(r, CountOf) == |done'|;
  }

  lemma ExistingDistinct(counts: seq<CategoryCount>, i: nat, c: string)
    requires DistinctCategories(counts) && i < |counts| && counts[i].category == c
    ensures DistinctCategories(counts[i := CategoryCount(c, counts[i].count + 1)])
  {
    var r := counts[i := CategoryCount(c, counts[i].count + 1)];
    forall a, b | 0 <= a < b < |r|
      ensures r[a].category != r[b].category
    {
      assert r[a].category == counts[a].category && r[b].category == counts[b].category;
    }
  }

  lemma ExistingCounts(counts: seq<CategoryCount>, rows: map<string, SkillRow>, done: set<string>, k: string, i: nat)
    requires CountsMatch(counts, rows, done) && DistinctCategories(counts) && k in rows && k !in done
    requires i < |counts| && counts[i].category == rows[k].category
    ensures CountsMatch(counts[i := CategoryCount(rows[k].category, counts[i].count + 1)], rows, done + {k})
  {
    var r := counts[i := CategoryCount(rows[k].category, counts[i].count + 1)];
    forall j | 0 <= j < |r|
      ensures r[j].count == |KeysOf(rows, done + {k}, r[j].category)| && r[j].count > 0
    {
      KeysOfAdd(rows, done, k, counts[j].category);
      assert r[j].category == counts[j].category;
      assert r[j].count == counts[j].count + (if j == i then 1 else 0);
    }
  }

  lemma TallyNew(counts: seq<CategoryCount>, rows: map<string, SkillRow>, done: set<string>, k: string)
    requires Counted(counts, rows, done) && k in rows && k !in done
    requires forall j :: 0 <= j < |counts| ==> counts[j].category != rows[k].category
    ensures Counted(counts + [CategoryCount(rows[k].category, 1)], rows, done + {k})
  {
    var c := rows[k].category;
    var r := counts + [CategoryCount(c, 1)];
    NewCounts(counts, rows, done, k);
    NewDistinct(counts, c);
    SumOfAppend(counts, CategoryCount(c, 1));
    assert |done + {k}| == |done| + 1;
    assert r[|counts|].category == c;
    TallyCovers(counts, r, rows, done, k);
  }

  lemma NewDistinct(counts: seq<CategoryCount>, c: string)
    requires DistinctCategories(counts)
    requires forall j :: 0 <= j < |counts| ==> counts[j].category != c
    ensures DistinctCategories(counts + [CategoryCount(c, 1)])
  {
    var r := counts + [CategoryCount(c, 1)];
    forall a, b | 0 <= a < b < |r|
      ensures r[a].category != r[b].category
    {
      assert r[a].category == counts[a].category;
    }
  }

  lemma NewCounts(counts: seq<CategoryCount>, rows: map<string, SkillRow>, done: set<string>, k: string)
    requires done <= rows.Keys && CountsMatch(counts, rows, done) && Covers(counts, rows, done) && k in rows && k !in done
    requires forall j :: 0 <= j < |counts| ==> counts[j].category != rows[k].category
    ensures CountsMatch(counts + [CategoryCount(rows[k].category, 1)], rows, done + {k})
  {
    var c := rows[k].category;
    var r := counts + [CategoryCount(c, 1)];
    forall m | m in done
      ensures rows[m].category != c
    {
      var j :| 0 <= j < |counts| && counts[j].category == rows[m].category;
    }
    assert KeysOf(rows, done, c) == {};
    KeysOfAdd(rows, done, k, c);
    forall j | 0 <= j < |r|
      ensures r[j].count == |KeysOf(rows, done + {k}, r[j].category)| && r[j].count > 0
    {
      if j < |counts| {
        KeysOfAdd(rows, done, k, counts[j].category);
      }
    }
  }

  lemma TallyCovers(counts: seq<CategoryCount>, r: seq<CategoryCount>, rows: map<string, SkillRow>,
                    done: set<string>, k: string)
    requires k in rows && done <= rows.Keys
    requires forall m :: m in done ==> exists i :: 0 <= i < |counts| && counts[i].category == rows[m].category
    requires |counts| <= |r| && forall i :: 0 <= i < |counts| ==> r[i].category == counts[i].category
    requires exists i :: 0 <= i < |r| && r[i].category == rows[k].category
    ensures Covers(r, rows, done + {k})
  {
    forall m | m in done + {k}
      ensures exists i :: 0 <= i < |r| && r[i].category == rows[m].category
    {
      if m in done {
        var i :| 0 <= i < |counts| && counts[i].category == rows[m].category;
        assert r[i].category == rows[m].category;
      }
    }
  }

  /** Largest count first. */
  predicate CountsDescending(counts: seq<CategoryCount>)
  {
    forall i, j :: 0 <= i < j < |counts| ==> counts[j].count <= counts[i].count
  }

  /** `ORDER BY count DESC` keeps what the tally established. */
  lemma SortedCounts(counts: seq<CategoryCount>, rows: map<string, SkillRow>)
    requires Counted(counts, rows, rows.Keys)
    ensures var sorted := Sorting.SortBy(counts, Sorting.IntDesc(CountKey));
      Counted(sorted, rows, rows.Keys) && CountsDescending(sorted)
  {
    var le := Sorting.IntDesc(CountKey);
    var sorted := Sorting.SortBy(counts, le);
    Sorting.SumOfSortBy(counts, le, CountOf);
    SortedDistinct(counts);
    SortedMembers(counts, rows);
    SortedDescending(counts);
  }

  lemma SortedDistinct(counts: seq<CategoryCount>)
    requires DistinctCategories(counts)
    ensures DistinctCategories(Sorting.SortBy(counts, Sorting.IntDesc(CountKey)))
  {
    var sorted := Sorting.SortBy(counts, Sorting.IntDesc(CountKey));
    assert ListOps.DistinctKeys(counts, NameOf) by {
      forall i, j | 0 <= i < j < |counts|
        ensures NameOf(counts[i]) != NameOf(counts[j])
      {
      }
    }
    Sorting.SortByDistinct(counts, Sorting.IntDesc(CountKey), NameOf);
    forall i, j | 0 <= i < j < |sorted|
      ensures sorted[i].category != sorted[j].category
    {
      assert NameOf(sorted[i]) != NameOf(sorted[j]);
    }
  }

  lemma SortedMembers(counts: seq<CategoryCount>, rows: map<string, SkillRow>)
    requires CountsMatch(counts, rows, rows.Keys) && Covers(counts, rows, rows.Keys)
    ensures CountsMatch(Sorting.SortBy(counts, Sorting.IntDesc(CountKey)), rows, rows.Keys)
    ensures Covers(Sorting.SortBy(counts, Sorting.IntDesc(CountKey)), rows, rows.Keys)
  {
    var sorted := Sorting.SortBy(counts, Sorting.IntDesc(CountKey));
    forall i | 0 <= i < |sorted|
      ensures sorted[i].count == |KeysOf(rows, rows.Keys, sorted[i].category)| && sorted[i].count > 0
    {
      assert sorted[i] in multiset(counts);
    }
    forall k | k in rows.Keys
      ensures exists i :: 0 <= i < |sorted| && sorted[i].category == rows[k].category
    {
      var i :| 0 <= i < |counts| && counts[i].category == rows[k].category;
      assert counts[i] in multiset(sorted);
      var j :| 0 <= j < |sorted| && sorted[j] == counts[i];
    }
  }

  lemma SortedDescending(counts: seq<CategoryCount>)
    ensures CountsDescending(Sorting.SortBy(counts, Sorting.IntDesc(CountKey)))
  {
    var le := Sorting.IntDesc(CountKey);
    var sorted := Sorting.SortBy(counts, le);
    Sorting.IntDescOrder(CountKey);
    Sorting.SortBySorted(counts, le);
    forall i, j | 0 <= i < j < |sorted|
      ensures sorted[j].count <= sorted[i].count
    {
      assert le(sorted[i], sorted[j]);
      assert CountKey(sorted[j]) <= CountKey(sorted[i]);
    }
  }

  /** The `GROUP BY category` pass: one scan of the table, tallying each row into its category. */
  method TallyRows(rows: map<string, SkillRow>) returns (counts: seq<CategoryCount>)
    ensures Counted(counts, rows, rows.Keys)
  {
    counts := [];
    var rest := rows.Keys;
    ghost var done: set<string> := {};
    CountedEmpty(rows);
    while rest != {}
      invariant rest <= rows.Keys && done == rows.Keys - rest
      invariant Counted(counts, rows, done)
      decreases rest
    {
      var k :| k in rest;
      TallyCounted(counts, rows, done, k);
      counts := Tally(counts, rows[k].category);
      rest := rest - {k};
      done := done + {k};
    }
    assert done == rows.Keys;
  }

  lemma CountedEmpty(rows: map<string, SkillRow>)
    ensures Counted([], rows, {})
  {
  }

  class SkillTable {
    var rows: map<string, SkillRow>

    ghost predicate Valid()
      reads this
    {
      forall k :: k in rows ==> RowChecks(rows[k])
    }

    constructor ()
      ensures rows == map[] && Valid()
    {
      rows := map[];
    }

    /** `GET /`: every row, by category and then by name. */
    method List() returns (resp: Response<seq<(string, SkillRow)>>)
      ensures resp.Ok? && |resp.body| == |rows|
      ensures forall i :: 0 <= i < |resp.body| ==> resp.body[i].0 in rows && rows[resp.body[i].0] == resp.body[i].1
      ensures forall k :: k in rows ==> (k, rows[k]) in resp.body
      ensures forall i, j :: 0 <= i < j < |resp.body| ==> resp.body[i].0 != resp.body[j].0
      ensures Sorting.Sorted(resp.body, CategoryThenName())
    {
      Sorting.KeyAscOrder(Category);
      Sorting.KeyAscOrder(Name);
      Sorting.ThenOrder(Sorting.KeyAsc(Category), Sorting.KeyAsc(Name));
      var sorted := Db.SelectOrderBy(rows, CategoryThenName());
      resp := Ok(sorted);
    }

    /**
     * `GET /categories/:category`: each row of one category once, level text
     * descending, then years descending.
     */
    method ByCategory(category: string) returns (resp: Response<seq<(string, SkillRow)>>)
      ensures resp.Ok?
      ensures forall i :: 0 <= i < |resp.body| ==>
        resp.body[i].0 in rows && rows[resp.body[i].0] == resp.body[i].1 && resp.body[i].1.category == category
      ensures forall k :: k in rows && rows[k].category == category ==> (k, rows[k]) in resp.body
      ensures forall i, j :: 0 <= i < j < |resp.body| ==> resp.body[i].0 != resp.body[j].0
      ensures Sorting.Sorted(resp.body, LevelTextThenYears())
    {
      resp := SelectCategory(category, LevelTextThenYears());
    }

    /** The same query ordered strongest level first. */
    method ByCategoryRanked(category: string) returns (resp: Response<seq<(string, SkillRow)>>)
      ensures resp.Ok?
      ensures forall i :: 0 <= i < |resp.body| ==>
        resp.body[i].0 in rows && rows[resp.body[i].0] == resp.body[i].1 && resp.body[i].1.category == category
      ensures forall k :: k in rows && rows[k].category == category ==> (k, rows[k]) in resp.body
      ensures forall i, j :: 0 <= i < j < |resp.body| ==> resp.body[i].0 != resp.body[j].0
      ensures Sorting.Sorted(resp.body, LevelRankThenYears())
    {
      resp := SelectCategory(category, LevelRankThenYears());
    }

    /** `SELECT * FROM skills WHERE category = ? ORDER BY …` for either ordering. */
    method SelectCategory(category: string, le: ((string, SkillRow), (string, SkillRow)) -> bool)
      returns (resp: Response<seq<(string, SkillRow)>>)
      requires le == LevelTextThenYears() || le == LevelRankThenYears()
      ensures resp.Ok?
      ensures forall i :: 0 <= i < |resp.body| ==>
        resp.body[i].0 in rows && rows[resp.body[i].0] == resp.body[i].1 && resp.body[i].1.category == category
      ensures forall k :: k in rows && rows[k].category == category ==> (k, rows[k]) in resp.body
      ensures forall i, j :: 0 <= i < j < |resp.body| ==> resp.body[i].0 != resp.body[j].0
      ensures Sorting.Sorted(resp.body, le)
    {
      Sorting.KeyDescOrder(Level);
      Sorting.IntDescOrder(Years);
      Sorting.IntDescOrder(LevelRank);
      Sorting.ThenOrder(Sorting.KeyDesc(Level), Sorting.IntDesc(Years));
      Sorting.ThenOrder(Sorting.IntDesc(LevelRank), Sorting.IntDesc(Years));
      var scanned := Db.Scan(rows);
      var keep := (e: (string, SkillRow)) => e.1.category == category;
      var matching := ListOps.Filter(scanned, keep);
      var sorted := Sorting.SortBy(matching, le);
      Sorting.SortBySorted(matching, le);
      ListOps.FilterDistinct(scanned, keep, Db.Key);
      Sorting.SortByDistinct(matching, le, Db.Key);
      forall i | 0 <= i < |sorted|
        ensures sorted[i].0 in rows && rows[sorted[i].0] == sorted[i].1 && sorted[i].1.category == category
      {
        assert sorted[i] in multiset(matching);
        Db.ScanMembers(rows, scanned, sorted[i].0, sorted[i].1);
        assert sorted[i] in multiset(scanned);
      }
      forall k | k in rows && rows[k].category == category
        ensures (k, rows[k]) in sorted
      {
        Db.ScanMembers(rows, scanned, k, rows[k]);
        assert (k, rows[k]) in multiset(scanned);
        var m :| 0 <= m < |scanned| && scanned[m] == (k, rows[k]);
        assert keep(scanned[m]);
        assert (k, rows[k]) in multiset(matching);
      }
      resp := Ok(sorted);
    }

    /**
     * `GET /categories`: one row per category with its `COUNT(*)`, largest
     * count first; the counts add up to the number of skills.
     */
    method Categories() returns (resp: Response<seq<CategoryCount>>)
      ensures resp.Ok?
      ensures DistinctCategories(resp.body)
      ensures forall i :: 0 <= i < |resp.body| ==>
        resp.body[i].count == CategorySize(rows, resp.body[i].category) && resp.body[i].count > 0
      ensures Covers(resp.body, rows, rows.Keys)
      ensures Sorting.SumOf(resp.body, CountOf) == |rows|
      ensures CountsDescending(resp.body)
    {
      var counts := TallyRows(rows);
      var sorted := Sorting.SortBy(counts, Sorting.IntDesc(CountKey));
      SortedCounts(counts, rows);
      assert |rows.Keys| == |rows|;
      resp := Ok(sorted);
    }

    /** `POST /`: 400 without a truthy name and category; a taken id or a bad level answers 500. */
    method Post(req: SkillRequest, id: string, now: string) returns (resp: Response<(string, SkillRow)>)
      requires Valid()
      modifies this
      ensures Valid()
      ensures !(Truthy(req.name) && Truthy(req.category)) ==> resp == BadRequest(RequiredMessage) && rows == old(rows)
      ensures Truthy(req.name) && Truthy(req.category) && (id in old(rows) || !RowChecks(NewRow(req, now))) ==>
        resp == ServerError(CreateFailed) && rows == old(rows)
      ensures Truthy(req.name) && Truthy(req.category) && id !in old(rows) && RowChecks(NewRow(req, now)) ==>
        rows == old(rows)[id := NewRow(req, now)] && resp == Created((id, NewRow(req, now)))
    {
      if !(Truthy(req.name) && Truthy(req.category)) {
        return BadRequest(RequiredMessage);
      }
      var row := NewRow(req, now);
      if id in rows || !RowChecks(row) {
        return ServerError(CreateFailed);
      }
      rows := rows[id := row];
      resp := Created((id, row));
    }

    /** `PUT /:id`: 404 for an unknown id; otherwise the coalesced row, unless its level breaks the CHECK. */
    method Put(id: string, req: SkillRequest, now: string) returns (resp: Response<(string, SkillRow)>)
      requires Valid()
      modifies this
      ensures Valid()
      ensures id !in old(rows) ==> resp == NotFound(NotFoundMessage) && rows == old(rows)
      ensures id in old(rows) && !RowChecks(Merged(old(rows)[id], req, now)) ==>
        resp == ServerError(UpdateFailed) && rows == old(rows)
      ensures id in old(rows) && RowChecks(Merged(old(rows)[id], req, now)) ==>
        rows == old(rows)[id := Merged(old(rows)[id], req, now)] && resp == Ok((id, Merged(old(rows)[id], req, now)))
    {
      if id !in rows {
        return NotFound(NotFoundMessage);
      }
      var row := Merged(rows[id], req, now);
      if !RowChecks(row) {
        return ServerError(UpdateFailed);
      }
      rows := rows[id := row];
      resp := Ok((id, row));
    }

    /** `DELETE /:id`: 204 whether or not the row existed. */
    method Delete(id: string) returns (resp: Response<(string, SkillRow)>)
      requires Valid()
      modifies this
      ensures Valid()
      ensures resp == NoContent && rows == old(rows) - {id}
    {
      rows := rows - {id};
      resp := NoContent;
    }
  }
}

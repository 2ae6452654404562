/**
 * The standard resume template: which sections it renders and in what
 * order, the year-range formatter for dates, the personal-information line
 * with its `|` separators, and the grouping of skills by category.
 */
module StandardTemplate {
  import opened Wrappers
  import opened Types
  import opened Strings
  import ListOps

  // ------------------------------------------------------------ dates

  /**
   * `${new Date(s).getFullYear()}`: the year of a parsable date, `NaN` for
   * an invalid one. Date parsing itself is a parameter of the model.
   */
  function YearText(year: Option<int>): (r: string)
    ensures |r| > 0
    ensures '0' <= r[|r| - 1] <= '9' || r[|r| - 1] == 'N'
  {
    match year
    case Some(y) => IntToString(y)
    case None => "NaN"
  }

  /** An end date that means "still going". */
  predicate OpenEnded(end: Option<string>)
  {
    !Truthy(end) || end.value == "present" || end.value == "至今"
  }

  /**
   * `formatDate(start, end)`. `yearOf` stands for `new Date(·).getFullYear()`;
   * since an invalid date yields `NaN` rather than throwing, the `catch`
   * branch is never taken.
   */
  function FormatDate(start: Option<string>, end: Option<string>, yearOf: string -> Option<int>): (r: string)
    ensures !Truthy(start) ==> r == ""
    ensures Truthy(start) && OpenEnded(end) ==> r == YearText(yearOf(start.value)) + " 至今"
    ensures Truthy(start) && !OpenEnded(end) ==>
      r == YearText(yearOf(start.value)) + " - " + YearText(yearOf(end.value))
  {
    if !Truthy(start) then ""
    else if OpenEnded(end) then YearText(yearOf(start.value)) + " 至今"
    else YearText(yearOf(start.value)) + " - " + YearText(yearOf(end.value))
  }

  /** A dated entry reads "… 至今" exactly when its end is open. */
  lemma FormatDateOpenIff(start: Option<string>, end: Option<string>, yearOf: string -> Option<int>)
    requires Truthy(start)
    ensures var r := FormatDate(start, end, yearOf);
      |r| > 0 && (r[|r| - 1] == '今' <==> OpenEnded(end))
  {
    var r := FormatDate(start, end, yearOf);
    if !OpenEnded(end) {
      var y := YearText(yearOf(end.value));
      var pre := YearText(yearOf(start.value)) + " - ";
      assert r == pre + y;
      assert r[|r| - 1] == y[|y| - 1];
    }
  }

  // -------------------------------------------------- personal info line

  /** One optional field after the first: a `|` span, then the value span, both only when truthy. */
  function Separated(field: Option<string>): (spans: seq<string>)
    ensures Truthy(field) ==> spans == ["|", field.value]
    ensures !Truthy(field) ==> spans == []
  {
    if Truthy(field) then ["|", field.value] else []
  }

  /** The spans of the detail line, in order: gender, age, hometown, height, marriage and political status. */
  function InfoSpans(p: PersonalInfo): seq<string>
  {
    (if Truthy(p.gender) then [p.gender.value] else [])
    + Separated(p.age) + Separated(p.hometown) + Separated(p.height)
    + Separated(p.marriageStatus) + Separated(p.politicalStatus)
  }

  function CountTruthy(fields: seq<Option<string>>): (n: nat)
    ensures n <= |fields|
    decreases |fields|
  {
    if |fields| == 0 then 0 else (if Truthy(fields[0]) then 1 else 0) + CountTruthy(fields[1..])
  }

  function AfterGender(p: PersonalInfo): seq<Option<string>>
  {
    [p.age, p.hometown, p.height, p.marriageStatus, p.politicalStatus]
  }

  /**
   * Gender is never preceded by a separator; each later field contributes a
   * separator and its value exactly when it is truthy.
   */
  lemma InfoSpansShape(p: PersonalInfo)
    ensures |InfoSpans(p)| == (if Truthy(p.gender) then 1 else 0) + 2 * CountTruthy(AfterGender(p))
    ensures Truthy(p.gender) ==> InfoSpans(p)[0] == p.gender.value
  {
    var f := AfterGender(p);
    assert f[1..] == [p.hometown, p.height, p.marriageStatus, p.politicalStatus];
    assert f[1..][1..] == [p.height, p.marriageStatus, p.politicalStatus];
    assert f[1..][1..][1..] == [p.marriageStatus, p.politicalStatus];
    assert f[1..][1..][1..][1..] == [p.politicalStatus];
    assert f[1..][1..][1..][1..][1..] == [];
    assert CountTruthy(f[1..][1..][1..][1..]) == (if Truthy(p.politicalStatus) then 1 else 0);
    assert CountTruthy(f[1..][1..][1..]) == (if Truthy(p.marriageStatus) then 1 else 0) + CountTruthy(f[1..][1..][1..][1..]);
    assert CountTruthy(f[1..][1..]) == (if Truthy(p.height) then 1 else 0) + CountTruthy(f[1..][1..][1..]);
    assert CountTruthy(f[1..]) == (if Truthy(p.hometown) then 1 else 0) + CountTruthy(f[1..][1..]);
    assert CountTruthy(f) == (if Truthy(p.age) then 1 else 0) + CountTruthy(f[1..]);
  }

  /** With no gender, the line starts with a separator as soon as any later field is set. */
  lemma InfoSpansLeadingSeparator(p: PersonalInfo)
    requires !Truthy(p.gender) && Truthy(p.age)
    ensures InfoSpans(p)[0] == "|"
  {
  }

  /** Separators only between present values: the evident intent of the detail line. */
  function InfoSpansBetween(p: PersonalInfo): (spans: seq<string>)
  {
    Interleave(Present([p.gender] + AfterGender(p)))
  }

  /** The values of the truthy fields, in order. */
  function Present(fields: seq<Option<string>>): (vs: seq<string>)
    ensures |vs| == CountTruthy(fields)
    decreases |fields|
  {
    if |fields| == 0 then []
    else (if Truthy(fields[0]) then [fields[0].value] else []) + Present(fields[1..])
  }

  /** `vs` with a `|` between neighbours. */
  function Interleave(vs: seq<string>): (spans: seq<string>)
    ensures |vs| == 0 ==> spans == []
    ensures |vs| > 0 ==> |spans| == 2 * |vs| - 1 && spans[0] == vs[0] && spans[|spans| - 1] == vs[|vs| - 1]
    decreases |vs|
  {
    if |vs| <= 1 then vs else [vs[0], "|"] + Interleave(vs[1..])
  }

  /** Even positions hold the values in order, odd positions the separators. */
  lemma {:induction false} InterleaveAt(vs: seq<string>, i: nat)
    requires i < |vs|
    ensures Interleave(vs)[2 * i] == vs[i]
    ensures i + 1 < |vs| ==> Interleave(vs)[2 * i + 1] == "|"
    decreases i
  {
    if i > 0 {
      InterleaveAt(vs[1..], i - 1);
      assert Interleave(vs)[2 * i] == Interleave(vs[1..])[2 * (i - 1)];
      if i + 1 < |vs| {
        assert Interleave(vs)[2 * i + 1] == Interleave(vs[1..])[2 * (i - 1) + 1];
      }
    }
  }

  /**
   * The corrected line starts and ends with a value, never with a separator
   * standing for nothing, and holds one value span per truthy field.
   */
  lemma InfoSpansBetweenShape(p: PersonalInfo)
    ensures var vs := Present([p.gender] + AfterGender(p));
      var spans := InfoSpansBetween(p);
      |vs| == CountTruthy([p.gender] + AfterGender(p))
      && (|vs| > 0 ==> spans[0] == vs[0] && spans[|spans| - 1] == vs[|vs| - 1])
  {
  }

  // --------------------------------------------------------- sections

  datatype SectionKind = Header | EducationSection | SummarySection | ExperienceSection
                       | ProjectsSection | ActivitiesSection | QualificationsSection

  /**
   * The sections in page order. Education, experience, the activities
   * placeholder and the qualifications block are rendered even for empty lists.
   */
  function Sections(r: Resume): (ks: seq<SectionKind>)
    ensures SummarySection in ks <==> Truthy(r.summary)
    ensures ProjectsSection in ks <==> |r.projects| > 0
    ensures EducationSection in ks && ExperienceSection in ks && ActivitiesSection in ks && QualificationsSection in ks
    ensures ks[0] == Header && ks[1] == EducationSection
    ensures ks[|ks| - 2] == ActivitiesSection && ks[|ks| - 1] == QualificationsSection
  {
    [Header, EducationSection]
    + (if Truthy(r.summary) then [SummarySection] else [])
    + [ExperienceSection]
    + (if |r.projects| > 0 then [ProjectsSection] else [])
    + [ActivitiesSection, QualificationsSection]
  }

  /** `项目参与 ${index + 1}` */
  function ProjectHeading(index: nat): string
  {
    "项目参与 " + NatToString(index + 1)
  }

  /** The project headings are numbered from 1 and never repeat. */
  lemma ProjectHeadingsDistinct(i: nat, j: nat)
    requires ProjectHeading(i) == ProjectHeading(j)
    ensures i == j
  {
    var pre := "项目参与 ";
    assert NatToString(i + 1) == ProjectHeading(i)[|pre|..];
    assert NatToString(j + 1) == ProjectHeading(j)[|pre|..];
    NatToStringInjective(i + 1, j + 1);
  }

  /** Heading `index` carries the number `index + 1` after its fixed prefix. */
  lemma ProjectHeadingNumber(index: nat)
    ensures var h := ProjectHeading(index); var pre := "项目参与 ";
      |pre| < |h| && h[..|pre|] == pre && DigitsValue(h[|pre|..]) == index + 1
  {
    var pre := "项目参与 ";
    var digits := NatToString(index + 1);
    assert ProjectHeading(index)[..|pre|] == pre && ProjectHeading(index)[|pre|..] == digits;
    NatToStringRoundTrip(index + 1);
  }

  // ---------------------------------------------------- skill grouping

  /** The skills of one category, in input order. */
  function OfCategory(skills: seq<Skill>, category: string): (r: seq<Skill>)
  {
    ListOps.Filter(skills, (s: Skill) => s.category == category)
  }

  function GroupSizes(groups: seq<(string, seq<Skill>)>): nat
    decreases |groups|
  {
    if |groups| == 0 then 0 else |groups[0].1| + GroupSizes(groups[1..])
  }

  lemma {:induction false} GroupSizesAppend(groups: seq<(string, seq<Skill>)>, g: (string, seq<Skill>))
    ensures GroupSizes(groups + [g]) == GroupSizes(groups) + |g.1|
    decreases |groups|
  {
    if |groups| == 0 {
      assert ([] + [g])[1..] == [];
    } else {
      assert (groups + [g])[1..] == groups[1..] + [g];
      GroupSizesAppend(groups[1..], g);
    }
  }

  lemma {:induction false} GroupSizesGrow(groups: seq<(string, seq<Skill>)>, k: nat, s: Skill)
    requires k < |groups|
    ensures GroupSizes(groups[k := (groups[k].0, groups[k].1 + [s])]) == GroupSizes(groups) + 1
    decreases |groups|
  {
    if k > 0 {
      GroupSizesGrow(groups[1..], k - 1, s);
      assert groups[k := (groups[k].0, groups[k].1 + [s])][1..] == groups[1..][k - 1 := (groups[k].0, groups[k].1 + [s])];
    }
  }

  lemma OfCategorySnoc(skills: seq<Skill>, s: Skill, category: string)
    ensures OfCategory(skills + [s], category)
         == OfCategory(skills, category) + (if s.category == category then [s] else [])
  {
    var keep := (x: Skill) => x.category == category;
    ListOps.FilterConcat(skills, [s], keep);
    assert ListOps.Filter([s], keep) == (if keep(s) then [s] else []) + ListOps.Filter([], keep);
  }

  /** The groups so far account for exactly the skills seen so far. */
  predicate Grouped(groups: seq<(string, seq<Skill>)>, seen: seq<Skill>)
  {
    (forall i, j :: 0 <= i < j < |groups| ==> groups[i].0 != groups[j].0)
    && (forall i :: 0 <= i < |groups| ==> groups[i].1 == OfCategory(seen, groups[i].0) && |groups[i].1| > 0)
    && (forall k :: 0 <= k < |seen| ==> exists i :: 0 <= i < |groups| && groups[i].0 == seen[k].category)
    && GroupSizes(groups) == |seen|
  }

  /** The reducer's callback: push onto the skill's category, creating the group on first sight. */
  function AddSkill(groups: seq<(string, seq<Skill>)>, s: Skill): (r: seq<(string, seq<Skill>)>)
  {
    match ListOps.FindIndex(groups, (g: (string, seq<Skill>)) => g.0 == s.category)
    case Some(k) => groups[k := (s.category, groups[k].1 + [s])]
    case None => groups + [(s.category, [s])]
  }

  lemma AddSkillGrouped(groups: seq<(string, seq<Skill>)>, seen: seq<Skill>, s: Skill)
    requires Grouped(groups, seen)
    ensures Grouped(AddSkill(groups, s), seen + [s])
  {
    match ListOps.FindIndex(groups, (g: (string, seq<Skill>)) => g.0 == s.category)
    case Some(k) => AddToExisting(groups, seen, s, k);
    case None => AddNewGroup(groups, seen, s);
  }

  /** Every skill seen so far keeps a group when the groups' keys do not change. */
  lemma CoveredAfter(groups: seq<(string, seq<Skill>)>, r: seq<(string, seq<Skill>)>, seen: seq<Skill>, s: Skill)
    requires forall k :: 0 <= k < |seen| ==> exists i :: 0 <= i < |groups| && groups[i].0 == seen[k].category
    requires |groups| <= |r| && forall i :: 0 <= i < |groups| ==> r[i].0 == groups[i].0
    requires exists i :: 0 <= i < |r| && r[i].0 == s.category
    ensures forall k :: 0 <= k < |seen + [s]| ==> exists i :: 0 <= i < |r| && r[i].0 == (seen + [s])[k].category
  {
    forall k | 0 <= k < |seen + [s]|
      ensures exists i :: 0 <= i < |r| && r[i].0 == (seen + [s])[k].category
    {
      if k < |seen| {
        assert (seen + [s])[k] == seen[k];
        var i :| 0 <= i < |groups| && groups[i].0 == seen[k].category;
        assert r[i].0 == (seen + [s])[k].category;
      }
    }
  }

  lemma AddToExisting(groups: seq<(string, seq<Skill>)>, seen: seq<Skill>, s: Skill, k: nat)
    requires Grouped(groups, seen)
    requires k < |groups| && groups[k].0 == s.category
    ensures Grouped(groups[k := (s.category, groups[k].1 + [s])], seen + [s])
  {
    var r := groups[k := (s.category, groups[k].1 + [s])];
    forall i | 0 <= i < |groups|
      ensures r[i].1 == OfCategory(seen + [s], r[i].0) && |r[i].1| > 0
    {
      OfCategorySnoc(seen, s, groups[i].0);
    }
    GroupSizesGrow(groups, k, s);
    assert r[k].0 == s.category;
    CoveredAfter(groups, r, seen, s);
  }

  lemma AddNewGroup(groups: seq<(string, seq<Skill>)>, seen: seq<Skill>, s: Skill)
    requires Grouped(groups, seen)
    requires forall i :: 0 <= i < |groups| ==> groups[i].0 != s.category
    ensures Grouped(groups + [(s.category, [s])], seen + [s])
  {
    var r := groups + [(s.category, [s])];
    OfCategorySnoc(seen, s, s.category);
    forall m | 0 <= m < |seen|
      ensures seen[m].category != s.category
    {
      var i :| 0 <= i < |groups| && groups[i].0 == seen[m].category;
    }
    ListOps.FilterKeepsNone(seen, (x: Skill) => x.category == s.category);
    forall i | 0 <= i < |groups|
      ensures r[i].1 == OfCategory(seen + [s], r[i].0) && |r[i].1| > 0
    {
      OfCategorySnoc(seen, s, groups[i].0);
    }
    GroupSizesAppend(groups, (s.category, [s]));
    assert r[|groups|].0 == s.category;
    CoveredAfter(groups, r, seen, s);
  }

  /**
   * `skills.reduce(...)` into a record keyed by category. The record is
   * kept as its entries in insertion order, which is the order
   * `Object.entries` lists them in.
   */
  method GroupSkills(skills: seq<Skill>) returns (groups: seq<(string, seq<Skill>)>)
    ensures forall i, j :: 0 <= i < j < |groups| ==> groups[i].0 != groups[j].0
    ensures forall i :: 0 <= i < |groups| ==> groups[i].1 == OfCategory(skills, groups[i].0) && |groups[i].1| > 0
    ensures forall k :: 0 <= k < |skills| ==> exists i :: 0 <= i < |groups| && groups[i].0 == skills[k].category
    ensures GroupSizes(groups) == |skills|
    ensures |skills| > 0 ==> |groups| > 0
  {
    groups := [];
    var n := 0;
    while n < |skills|
      invariant 0 <= n <= |skills|
      invariant Grouped(groups, skills[..n])
    {
      assert skills[..n + 1] == skills[..n] + [skills[n]];
      AddSkillGrouped(groups, skills[..n], skills[n]);
      groups := AddSkill(groups, skills[n]);
      n := n + 1;
    }
    assert skills[..n] == skills;
    assert Grouped(groups, skills);
    if |groups| == 0 {
      assert GroupSizes(groups) == 0;
    }
  }
}

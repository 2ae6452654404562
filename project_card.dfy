/**
 * The project card: status and priority tags, the progress bar, the file
 * count, and the truncated technology and tag rows.
 */
module ProjectCard {
  import opened Wrappers
  import opened Types
  import opened ProjectLabels

  /** How many tags of a row are shown before the rest is summarised or dropped. */
  const ShownTags := 3

  /** A tag row: the tags shown, and the `+n` overflow tag if there is one. */
  datatype TagRow = TagRow(shown: seq<string>, overflow: Option<nat>)

  function Min(a: nat, b: nat): nat
  {
    if a <= b then a else b
  }

  /** The technology row: at most three tags, then `+(n-3)` when there are more. */
  function TechnologyRow(technologies: seq<string>): (r: TagRow)
    ensures |r.shown| == Min(ShownTags, |technologies|) && r.shown == technologies[..|r.shown|]
    ensures r.overflow.Some? <==> |technologies| > ShownTags
    ensures |r.shown| + r.overflow.GetOr(0) == |technologies|
  {
    TagRow(technologies[..Min(ShownTags, |technologies|)],
           if |technologies| > ShownTags then Some(|technologies| - ShownTags) else None)
  }

  /** The tag row: at most three tags and never an overflow tag. */
  function TagsRow(tags: seq<string>): (r: TagRow)
    ensures |r.shown| == Min(ShownTags, |tags|) && r.shown == tags[..|r.shown|]
    ensures |tags| <= ShownTags ==> r.shown == tags
    ensures r.overflow.None?
  {
    TagRow(tags[..Min(ShownTags, |tags|)], None)
  }

  /** `project.documents?.length || 0` */
  function FileCount(p: Project): (n: nat)
    ensures p.documents.Some? ==> n == |p.documents.value|
    ensures p.documents.None? ==> n == 0
  {
    match p.documents
    case Some(docs) => |docs|
    case None => 0
  }

  /** What the card shows of a project; a row is absent when its list is empty. */
  datatype CardView = CardView(
    title: string,
    priority: string,
    priorityColor: string,
    statusText: string,
    statusColor: string,
    progress: int,
    fileCount: nat,
    technologies: Option<TagRow>,
    tags: Option<TagRow>)

  function Card(p: Project): (v: CardView)
    ensures v.technologies.Some? <==> |p.technologies| > 0
    ensures v.tags.Some? <==> |p.tags| > 0
    ensures 0 <= v.progress <= 100
    ensures v.priority == p.priority && v.title == p.title
  {
    CardView(p.title, p.priority, PriorityColor(p.priority), StatusText(p.status), StatusColor(p.status),
             Progress(p.status), FileCount(p),
             if |p.technologies| > 0 then Some(TechnologyRow(p.technologies)) else None,
             if |p.tags| > 0 then Some(TagsRow(p.tags)) else None)
  }

  /** Every technology is either shown or counted in the overflow tag, and the shown ones come first. */
  lemma TechnologiesAccounted(p: Project)
    requires |p.technologies| > 0
    ensures var row := Card(p).technologies.value;
      |row.shown| + row.overflow.GetOr(0) == |p.technologies|
      && forall i :: 0 <= i < |row.shown| ==> row.shown[i] == p.technologies[i]
  {
  }
}

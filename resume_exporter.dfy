/**
 * Exporting a resume as a download. The PDF export is a fixed placeholder,
 * the HTML export one template filled with the resume's fields, and the
 * text export a string built up line by line. Every field is interpolated
 * verbatim: nothing is escaped.
 */
module ResumeExporter {
  import opened Wrappers
  import opened Types
  import opened Strings

  /** What a download carries: the file name, the MIME type of the blob and its content. */
  datatype Download = Download(fileName: string, mime: string, content: string)

  const PdfPlaceholder := "简历PDF内容"
  const UnsupportedFormat := "不支持的导出格式"

  /** `${name}_简历.${extension}` */
  function FileName(resume: Resume, extension: string): (r: string)
    ensures r == resume.personalInfo.name + "_简历." + extension
    ensures |r| == |resume.personalInfo.name| + 4 + |extension|
  {
    resume.personalInfo.name + "_简历." + extension
  }

  // ------------------------------------------------------------- PDF

  function ExportToPdf(resume: Resume): (d: Download)
    ensures d.content == PdfPlaceholder && d.mime == "application/pdf"
    ensures d.fileName == FileName(resume, "pdf")
  {
    Download(FileName(resume, "pdf"), "application/pdf", PdfPlaceholder)
  }

  /** The PDF content never depends on the resume. */
  lemma PdfIgnoresResume(a: Resume, b: Resume)
    ensures ExportToPdf(a).content == ExportToPdf(b).content
  {
  }

  // ------------------------------------------------------------ text

  /** Name, title, a blank line, the contact block and the bio, one `+=` each. */
  function TextHeader(p: PersonalInfo): string
  {
    NameAndTitle(p) + "联系方式:\n" + ContactLine("邮箱: ", p.email, "\n") + ContactLine("电话: ", p.phone, "\n")
    + ContactLine("地址: ", p.location, "\n\n") + p.bio + "\n\n"
  }

  function NameAndTitle(p: PersonalInfo): string
  {
    p.name + "\n" + p.title + "\n\n"
  }

  function ContactLine(caption: string, value: string, ending: string): string
  {
    caption + value + ending
  }

  function TextSummary(summary: Option<string>): string
  {
    if Truthy(summary) then "个人简介:\n" + summary.value + "\n\n" else ""
  }

  function AchievementLine(a: string): string
  {
    "- " + a + "\n"
  }

  function PositionLine(e: Experience): string
  {
    e.position + " - " + e.company + "\n"
  }

  function DatesLine(e: Experience): string
  {
    e.startDate + " 至 " + Interpolate(e.endDate) + "\n"
  }

  function AchievementsBlock(achievements: seq<string>): string
  {
    if |achievements| > 0 then "成就:\n" + ConcatMap(achievements, AchievementLine) else ""
  }

  function TechnologiesLine(technologies: seq<string>): string
  {
    if |technologies| > 0 then "技能: " + Join(technologies, ", ") + "\n" else ""
  }

  /** One experience: heading, dates, description, optional achievements and technologies, a blank line. */
  function TextExperience(e: Experience): string
  {
    PositionLine(e) + DatesLine(e) + (e.description + "\n")
    + AchievementsBlock(e.achievements) + TechnologiesLine(e.technologies) + "\n"
  }

  function TextExperiences(es: seq<Experience>): string
  {
    if |es| > 0 then "工作经历:\n" + ConcatMap(es, TextExperience) else ""
  }

  /** The whole text export. */
  function TextContent(r: Resume): string
  {
    TextHeader(r.personalInfo) + TextSummary(r.summary) + TextExperiences(r.experiences)
  }

  /**
   * `exportToText`: the content is accumulated with `+=`, one experience and
   * one achievement at a time.
   */
  method ExportToText(resume: Resume) returns (d: Download)
    ensures d.content == TextContent(resume)
    ensures d.fileName == FileName(resume, "txt") && d.mime == "text/plain"
  {
    var text := AppendHeader(resume.personalInfo);
    if Truthy(resume.summary) {
      text := text + ("个人简介:\n" + resume.summary.value + "\n\n");
    }
    ghost var before := text;
    assert before == TextHeader(resume.personalInfo) + TextSummary(resume.summary);
    var es := resume.experiences;
    if |es| > 0 {
      text := text + "工作经历:\n";
      var i := 0;
      while i < |es|
        invariant 0 <= i <= |es|
        invariant text == before + "工作经历:\n" + ConcatMap(es[..i], TextExperience)
      {
        ConcatMapSnoc(es[..i], es[i], TextExperience);
        assert es[..i + 1] == es[..i] + [es[i]];
        ConcatAssoc(before + "工作经历:\n", ConcatMap(es[..i], TextExperience), TextExperience(es[i]));
        text := AppendExperience(text, es[i]);
        i := i + 1;
      }
      assert es[..i] == es;
      ConcatAssoc(before, "工作经历:\n", ConcatMap(es, TextExperience));
    }
    d := Download(FileName(resume, "txt"), "text/plain", text);
  }

  /** The header lines, one `+=` each. */
  method AppendHeader(p: PersonalInfo) returns (text: string)
    ensures text == TextHeader(p)
  {
    text := NameAndTitle(p);
    text := text + "联系方式:\n";
    text := text + ContactLine("邮箱: ", p.email, "\n");
    text := text + ContactLine("电话: ", p.phone, "\n");
    text := text + ContactLine("地址: ", p.location, "\n\n");
    text := text + p.bio + "\n\n";
  }

  /** The body of the `forEach` over experiences. */
  method AppendExperience(text0: string, e: Experience) returns (text: string)
    ensures text == text0 + TextExperience(e)
  {
    text := text0 + PositionLine(e);
    text := text + DatesLine(e);
    text := text + (e.description + "\n");
    ghost var upToDescription := text;
    if |e.achievements| > 0 {
      text := text + "成就:\n";
      var j := 0;
      while j < |e.achievements|
        invariant 0 <= j <= |e.achievements|
        invariant text == upToDescription + "成就:\n" + ConcatMap(e.achievements[..j], AchievementLine)
      {
        ConcatMapSnoc(e.achievements[..j], e.achievements[j], AchievementLine);
        assert e.achievements[..j + 1] == e.achievements[..j] + [e.achievements[j]];
        ConcatAssoc(upToDescription + "成就:\n", ConcatMap(e.achievements[..j], AchievementLine),
                    AchievementLine(e.achievements[j]));
        text := text + AchievementLine(e.achievements[j]);
        j := j + 1;
      }
      assert e.achievements[..j] == e.achievements;
      ConcatAssoc(upToDescription, "成就:\n", ConcatMap(e.achievements, AchievementLine));
    }
    assert text == upToDescription + AchievementsBlock(e.achievements);
    if |e.technologies| > 0 {
      text := text + ("技能: " + Join(e.technologies, ", ") + "\n");
    }
    assert text == upToDescription + AchievementsBlock(e.achievements) + TechnologiesLine(e.technologies);
    text := text + "\n";
    ghost var pos, dates, desc := PositionLine(e), DatesLine(e), e.description + "\n";
    ghost var ach, tech := AchievementsBlock(e.achievements), TechnologiesLine(e.technologies);
    assert text == text0 + pos + dates + desc + ach + tech + "\n";
    assert TextExperience(e) == pos + dates + desc + ach + tech + "\n";
    SixAssoc(text0, pos, dates, desc, ach, tech, "\n");
  }

  lemma SixAssoc(a: string, b: string, c: string, d: string, e: string, f: string, g: string)
    ensures a + b + c + d + e + f + g == a + (b + c + d + e + f + g)
  {
  }

  /** The text begins with the header block, whatever else the resume holds. */
  lemma TextStartsWithHeader(r: Resume)
    ensures |TextHeader(r.personalInfo)| <= |TextContent(r)|
    ensures TextContent(r)[..|TextHeader(r.personalInfo)|] == TextHeader(r.personalInfo)
  {
    var h := TextHeader(r.personalInfo);
    var rest := TextSummary(r.summary) + TextExperiences(r.experiences);
    assert TextContent(r) == h + rest;
    assert (h + rest)[..|h|] == h;
  }

  /** The summary block is present exactly when the summary is truthy. */
  lemma TextSummaryIff(r: Resume)
    ensures Truthy(r.summary) <==> |TextContent(r)| > |TextHeader(r.personalInfo)| + |TextExperiences(r.experiences)|
  {
    assert |TextContent(r)| == |TextHeader(r.personalInfo)| + |TextSummary(r.summary)| + |TextExperiences(r.experiences)|;
  }

  /** Education, skills, projects and the template never reach the text export. */
  lemma TextIgnoresOtherSections(r: Resume, education: seq<Education>, skills: seq<Skill>,
                                 projects: seq<ProjectReference>, template: string)
    ensures TextContent(r.(education := education, skills := skills, projects := projects, template := template))
         == TextContent(r)
  {
  }

  /** One block per experience, in input order: exporting `a + b` writes `a`'s blocks, then `b`'s. */
  lemma TextExperienceBlocksInOrder(a: seq<Experience>, b: seq<Experience>)
    requires |a| > 0
    ensures TextExperiences(a + b) == TextExperiences(a) + ConcatMap(b, TextExperience)
  {
    ConcatMapConcat(a, b, TextExperience);
  }

  /** Each experience block ends with a blank line. */
  lemma TextExperienceEndsWithBlankLine(e: Experience)
    ensures |TextExperience(e)| >= 2
    ensures TextExperience(e)[|TextExperience(e)| - 2..] == "\n\n"
  {
    var t := TextExperience(e);
    var pre := PositionLine(e) + DatesLine(e) + (e.description + "\n");
    var ach, tech := AchievementsBlock(e.achievements), TechnologiesLine(e.technologies);
    var body := pre + ach + tech;
    assert t == body + "\n";
    if |e.technologies| > 0 {
      assert tech[|tech| - 1] == '\n';
    } else if |e.achievements| > 0 {
      AchievementsEndWithNewline(e.achievements);
      assert ach[|ach| - 1] == '\n';
      assert body == pre + ach;
    } else {
      assert body == pre;
      assert pre[|pre| - 1] == '\n';
    }
    assert body[|body| - 1] == '\n';
    assert t[|t| - 2..] == [body[|body| - 1], '\n'];
  }

  lemma {:induction false} AchievementsEndWithNewline(achs: seq<string>)
    requires |achs| > 0
    ensures |ConcatMap(achs, AchievementLine)| > 0
    ensures var c := ConcatMap(achs, AchievementLine); c[|c| - 1] == '\n'
    decreases |achs|
  {
    var c := ConcatMap(achs, AchievementLine);
    if |achs| == 1 {
      assert c == AchievementLine(achs[0]) + ConcatMap(achs[1..], AchievementLine);
      assert achs[1..] == [];
      assert c == "- " + achs[0] + "\n";
    } else {
      AchievementsEndWithNewline(achs[1..]);
      assert c == AchievementLine(achs[0]) + ConcatMap(achs[1..], AchievementLine);
    }
  }

  // ------------------------------------------------------------ HTML

  /** The document head; the style sheet is a fixed block of CSS. */
  function HtmlHead(name: string): string
  {
    HeadPrefix + name + HeadSuffix
  }

  const HeadPrefix :=
    "<!DOCTYPE html>\n<html lang=\"zh-CN\">\n<head>\n<meta charset=\"UTF-8\">\n"
    + "<meta name=\"viewport\" content=\"width=device-width, initial-scale=1.0\">\n<title>"

  const HeadSuffix := "的简历</title>\n<style>" + StyleSheet + "</style>\n</head>\n<body>\n"

  const StyleSheet :=
    "body { font-family: 'Microsoft YaHei', Arial, sans-serif; line-height: 1.6; color: #333; "
    + "max-width: 800px; margin: 0 auto; padding: 20px; } "
    + "h1, h2, h3 { color: #2c3e50; } "
    + ".section { margin-bottom: 20px; padding-bottom: 15px; border-bottom: 1px solid #eee; } "
    + ".contact-info { background-color: #f5f5f5; padding: 10px; border-radius: 4px; margin-bottom: 15px; }"

  function HtmlHeader(p: PersonalInfo): string
  {
    "<header>\n<h1>" + p.name + "</h1>\n<h2>" + p.title + "</h2>\n<div class=\"contact-info\">\n"
    + "<p>邮箱: " + p.email + "</p>\n<p>电话: " + p.phone + "</p>\n<p>地址: " + p.location + "</p>\n</div>\n"
    + "<p>" + p.bio + "</p>\n</header>\n"
  }

  function Section(heading: string, body: string): string
  {
    "<section class=\"section\">\n<h2>" + heading + "</h2>\n" + body + "</section>\n"
  }

  function Li(s: string): string { "<li>" + s + "</li>" }

  function HtmlList(items: seq<string>): string
  {
    if |items| > 0 then "<ul>\n" + ConcatMap(items, Li) + "\n</ul>\n" else ""
  }

  function HtmlSummary(summary: Option<string>): string
  {
    if Truthy(summary) then Section("个人简介", "<p>" + summary.value + "</p>\n") else ""
  }

  function HtmlExperience(e: Experience): string
  {
    "<div>\n<h3>" + e.position + " - " + e.company + "</h3>\n"
    + "<p>" + e.startDate + " 至 " + Interpolate(e.endDate) + "</p>\n"
    + "<p>" + e.description + "</p>\n"
    + HtmlList(e.achievements)
    + (if |e.technologies| > 0 then "<p>技能: " + Join(e.technologies, ", ") + "</p>\n" else "")
    + "</div>\n"
  }

  function HtmlEducation(e: Education): string
  {
    "<div>\n<h3>" + e.institution + "</h3>\n"
    + "<p>" + e.degree + " - " + e.field + "</p>\n"
    + "<p>" + e.startDate + " 至 " + e.endDate + "</p>\n"
    + (if NumberTruthy(e.gpa) then "<p>GPA: " + e.gpa.value + "</p>" else "") + "\n"
    + (if Truthy(e.description) then "<p>" + e.description.value + "</p>" else "") + "\n"
    + "</div>\n"
  }

  const SpanOpen :=
    "<span style=\"display: inline-block; background: #eee; padding: 2px 8px; margin: 2px; border-radius: 4px;\">\n"

  /** What a skill's chip reads: `name (category)`. */
  function SkillLabel(s: Skill): string
  {
    s.name + " (" + s.category + ")"
  }

  const SpanClose := "\n</span>\n"

  function HtmlSkill(s: Skill): string
  {
    SpanOpen + SkillLabel(s) + SpanClose
  }

  const SkillsOpen := "<section class=\"section\">\n<h2>技能</h2>\n<div>\n"
  const SkillsClose := "</div>\n</section>\n"

  /** The skills section: unlike the other lists, its chips sit inside one `<div>`. */
  function SkillsSection(skills: seq<Skill>): (r: string)
    ensures r == "" <==> |skills| == 0
  {
    if |skills| > 0 then SkillsOpen + ConcatMap(skills, HtmlSkill) + SkillsClose else ""
  }

  function HtmlProject(p: ProjectReference): string
  {
    "<div>\n<h3>" + p.role + "</h3>\n<p>" + p.contribution + "</p>\n" + HtmlList(p.highlights) + "</div>\n"
  }

  /** A section that is emitted only for a non-empty list. */
  function ListSection<T>(heading: string, xs: seq<T>, render: T -> string): (r: string)
    ensures r == "" <==> |xs| == 0
  {
    if |xs| > 0 then Section(heading, ConcatMap(xs, render)) else ""
  }

  function HtmlContent(r: Resume): string
  {
    HtmlHead(r.personalInfo.name) + HtmlBody(r)
  }

  /** Everything after the head. */
  function HtmlBody(r: Resume): string
  {
    BeforeSkills(r) + SkillsSection(r.skills) + AfterSkills(r)
  }

  function ExportToHtml(resume: Resume): (d: Download)
    ensures d.content == HtmlContent(resume) && d.mime == "text/html"
    ensures d.fileName == FileName(resume, "html")
  {
    Download(FileName(resume, "html"), "text/html", HtmlContent(resume))
  }

  /** The name reaches the page's title unescaped, markup and all. */
  lemma HtmlTitleVerbatim(r: Resume)
    ensures var html := HtmlContent(r); var k := |HeadPrefix|;
      k + |r.personalInfo.name| <= |html| && html[k..k + |r.personalInfo.name|] == r.personalInfo.name
  {
    var name := r.personalInfo.name;
    ConcatAssoc(HeadPrefix + name, HeadSuffix, HtmlBody(r));
    SliceMiddle(HeadPrefix, name, HeadSuffix + HtmlBody(r));
  }

  /** The body up to the skills: header, summary, experience and education. */
  function BeforeSkills(r: Resume): string
  {
    HtmlHeader(r.personalInfo) + HtmlSummary(r.summary)
    + ListSection("工作经历", r.experiences, HtmlExperience)
    + ListSection("教育背景", r.education, HtmlEducation)
  }

  /** The body after the skills: the projects and the closing tags. */
  function AfterSkills(r: Resume): string
  {
    ListSection("项目经验", r.projects, HtmlProject) + "</body>\n</html>\n"
  }

  /** The body up to the label of the `k`-th skill's chip. */
  function SkillFront(r: Resume, k: nat): string
    requires k < |r.skills|
  {
    BeforeSkills(r) + SkillsOpen + ConcatMap(r.skills[..k], HtmlSkill) + SpanOpen
  }

  /** The body after the label of the `k`-th skill's chip. */
  function SkillBack(r: Resume, k: nat): string
    requires k < |r.skills|
  {
    SpanClose + ConcatMap(r.skills[k + 1..], HtmlSkill) + SkillsClose + AfterSkills(r)
  }

  /** Nine pieces nested as the body nests them, regrouped around the fifth. */
  lemma Regroup(before: string, open: string, pre: string, span: string, chip: string, close: string,
                post: string, end: string, after: string)
    ensures before + (open + (pre + (span + chip + close) + post) + end) + after
      == (before + open + pre + span) + chip + (close + post + end + after)
  {
  }

  /** Every skill's `name (category)` is in the page's body, between the chips before and after it. */
  lemma HtmlSkillOnPage(r: Resume, k: nat)
    requires k < |r.skills|
    ensures HtmlBody(r) == SkillFront(r, k) + SkillLabel(r.skills[k]) + SkillBack(r, k)
  {
    var sk := r.skills;
    ConcatMapAt(sk, k, HtmlSkill);
    Regroup(BeforeSkills(r), SkillsOpen, ConcatMap(sk[..k], HtmlSkill), SpanOpen, SkillLabel(sk[k]), SpanClose,
            ConcatMap(sk[k + 1..], HtmlSkill), SkillsClose, AfterSkills(r));
  }

  /**
   * The chips come in the order of the skill list: the next label's front is
   * this one's front, this label, and the tags that close this chip and open
   * the next.
   */
  lemma HtmlSkillsInOrder(r: Resume, k: nat)
    requires k + 1 < |r.skills|
    ensures SkillFront(r, k + 1) == SkillFront(r, k) + SkillLabel(r.skills[k]) + SpanClose + SpanOpen
  {
    var sk := r.skills;
    assert sk[..k + 1] == sk[..k] + [sk[k]];
    ConcatMapSnoc(sk[..k], sk[k], HtmlSkill);
    RegroupNext(BeforeSkills(r), SkillsOpen, ConcatMap(sk[..k], HtmlSkill), SpanOpen, SkillLabel(sk[k]), SpanClose);
  }

  /** The pieces of two consecutive fronts, regrouped. */
  lemma RegroupNext(before: string, open: string, pre: string, span: string, chip: string, close: string)
    ensures before + open + (pre + (span + chip + close)) + span
      == (before + open + pre + span) + chip + close + span
  {
  }

  // --------------------------------------------------------- dispatch

  /** `exportResume(resume, template, format = 'pdf')`: a download, or the unsupported-format message. */
  method ExportResume(resume: Resume, template: string, format: Option<string>) returns (r: Outcome<Download>)
    ensures format.GetOr("pdf") == "pdf" ==> r == Fulfilled(ExportToPdf(resume))
    ensures format == Some("html") ==> r == Fulfilled(ExportToHtml(resume))
    ensures format == Some("text") ==> r == Fulfilled(Download(FileName(resume, "txt"), "text/plain", TextContent(resume)))
    ensures format.GetOr("pdf") != "pdf" && format != Some("html") && format != Some("text") ==>
      r == Rejected(Some(UnsupportedFormat))
  {
    var f := format.GetOr("pdf");
    if f == "pdf" {
      r := Fulfilled(ExportToPdf(resume));
    } else if f == "html" {
      r := Fulfilled(ExportToHtml(resume));
    } else if f == "text" {
      var d := ExportToText(resume);
      r := Fulfilled(d);
    } else {
      r := Rejected(Some(UnsupportedFormat));
    }
  }
}

/**
 * The resume library page: the list it loads from the browser's `resumes`
 * storage slot (seeding it with one example when the slot is empty),
 * deletion by `resumeId`, the edit hand-off through `sessionStorage`, the
 * preview modal and the template labels.
 */
module ResumeLibrary {
  import opened Wrappers
  import opened Types
  import ListOps

  const ResumePath := "/resume"

  /** A library entry: a resume with the library's own id, name and display date. */
  datatype LibraryItem = LibraryItem(resumeId: string, name: string, resume: Resume, displayDate: string)

  /** The entry the library is seeded with. */
  function Example(): (item: LibraryItem)
    ensures item.resumeId == "1" && item.resume.id == "1" && item.resume.template == "standard"
  {
    LibraryItem("1", "张三的简历",
      Resume("1",
        PersonalInfo("张三", "高级前端开发工程师", "zhangsan@example.com", "138****1234", "北京", None, None, None,
                     "", Some(""), Some("男"), Some("28"), Some("河北"), Some("178cm"), Some("未婚"), Some("中共党员")),
        [Experience("exp1", "某科技公司", "高级前端开发工程师", "2022-01-01", Some("present"),
                    "负责公司核心产品的前端开发和架构设计。", ["重构了公司官网，提升了页面加载速度30%"],
                    ["React", "TypeScript", "Ant Design"])],
        [Education("edu1", "某重点大学", "学士", "计算机科学与技术", "2016-09-01", "2020-06-30", Some("3.8"),
                   Some("主修计算机科学基础课程。"))],
        [Skill("skill1", "React", "前端框架", "expert", 5, None),
         Skill("skill2", "TypeScript", "编程语言", "advanced", 4, None)],
        [], Some("资深前端开发者，专注于创建高质量的用户体验。"), "standard",
        "2024-01-15T08:30:00Z", "2024-01-15T08:30:00Z"),
      "2024-01-15")
  }

  predicate HasResumeId(item: LibraryItem, id: string)
  {
    item.resumeId == id
  }

  /** `resumes.filter(resume => resume.resumeId !== id)` */
  function WithoutResume(items: seq<LibraryItem>, id: string): seq<LibraryItem>
  {
    ListOps.Filter(items, (item: LibraryItem) => !HasResumeId(item, id))
  }

  /** Deletion keeps exactly the entries with another id. */
  lemma WithoutResumeMembers(items: seq<LibraryItem>, id: string)
    ensures forall x :: x in WithoutResume(items, id) <==> x in items && x.resumeId != id
  {
  }

  /** Deleting an id nobody has changes nothing, and deleting twice is deleting once. */
  lemma WithoutResumeStable(items: seq<LibraryItem>, id: string)
    ensures (forall i :: 0 <= i < |items| ==> items[i].resumeId != id) ==> WithoutResume(items, id) == items
    ensures WithoutResume(WithoutResume(items, id), id) == WithoutResume(items, id)
  {
    var keep := (item: LibraryItem) => !HasResumeId(item, id);
    if forall i :: 0 <= i < |items| ==> items[i].resumeId != id {
      ListOps.FilterKeepsAll(items, keep);
    }
    var once := WithoutResume(items, id);
    ListOps.FilterKeepsAll(once, keep);
  }

  /** Deletion works piecewise, so the surviving entries keep their order. */
  lemma WithoutResumeConcat(a: seq<LibraryItem>, b: seq<LibraryItem>, id: string)
    ensures WithoutResume(a + b, id) == WithoutResume(a, id) + WithoutResume(b, id)
  {
    ListOps.FilterConcat(a, b, (item: LibraryItem) => !HasResumeId(item, id));
  }

  /** The template column: the three known templates get labels, anything else is shown as is. */
  function TemplateLabel(template: string): (r: string)
    ensures template == "standard" ==> r == "标准模板"
    ensures template == "modern" ==> r == "现代模板"
    ensures template == "creative" ==> r == "创意模板"
    ensures template !in ["standard", "modern", "creative"] ==> r == template
  {
    match template
    case "standard" => "标准模板"
    case "modern" => "现代模板"
    case "creative" => "创意模板"
    case _ => template
  }

  class LibraryPage {
    var resumes: seq<LibraryItem>
    var selected: Option<LibraryItem>
    var previewVisible: bool
    var loading: bool
    /** The `resumes` slot of `localStorage`; JSON is an identity round trip. */
    var stored: Option<seq<LibraryItem>>
    /** The `editResumeId` slot of `sessionStorage`. */
    var editResumeId: Option<string>
    var location: Option<string>

    constructor (initial: Option<seq<LibraryItem>>)
      ensures resumes == [] && selected == None && !previewVisible && loading
      ensures stored == initial && editResumeId == None && location == None
    {
      resumes := [];
      selected := None;
      previewVisible := false;
      loading := true;
      stored := initial;
      editResumeId := None;
      location := None;
    }

    /** The delayed load: a stored list is shown and not rewritten; an empty slot is seeded with the example. */
    method Load()
      modifies this`resumes, this`stored, this`loading
      ensures !loading
      ensures old(stored).Some? ==> resumes == old(stored).value && stored == old(stored)
      ensures old(stored).None? ==> resumes == [Example()] && stored == Some([Example()])
    {
      if stored.Some? {
        resumes := stored.value;
      } else {
        var seeded := [Example()];
        stored := Some(seeded);
        resumes := seeded;
      }
      loading := false;
    }

    /** `handleDelete`, once confirmed: storage and state receive the same filtered list. */
    method Delete(id: string)
      modifies this`resumes, this`stored
      ensures resumes == WithoutResume(old(resumes), id)
      ensures stored == Some(resumes)
    {
      var updated := WithoutResume(resumes, id);
      stored := Some(updated);
      resumes := updated;
    }

    /** `handleEdit`: the entry's `resumeId` is handed over before navigating. */
    method Edit(item: LibraryItem)
      modifies this`editResumeId, this`location
      ensures editResumeId == Some(item.resumeId) && location == Some(ResumePath)
    {
      editResumeId := Some(item.resumeId);
      location := Some(ResumePath);
    }

    method Preview(item: LibraryItem)
      modifies this`selected, this`previewVisible
      ensures selected == Some(item) && previewVisible
    {
      selected := Some(item);
      previewVisible := true;
    }

    /** Closing the modal only hides it; the selection stays. */
    method ClosePreview()
      modifies this`previewVisible
      ensures !previewVisible
    {
      previewVisible := false;
    }
  }
}

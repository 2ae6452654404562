# resume-frontend, modelled in Dafny

resume-frontend manages a personal resume and a portfolio of projects.

- **Back end:** an Express server over SQLite. It has project, skill and resume tables with CRUD routes.
- **Front end:** a React app with Redux slices for projects, resumes, skills and AI usage.
  - The project slice keeps its data in the browser's `localStorage`.
  - The app also has resume editors, a standard resume template, exporters (PDF placeholder, HTML, plain text), a photo uploader with cropping, a project dashboard, list, card, detail, create and edit pages, and a resume library.

This project models the deterministic rules of that code and proves what they promise. Components whose handlers overwrite their state become classes:

- `PhotoUploader.Uploader`, the editors' `Editor` classes, `ProjectEdit.EditPage` and `ResumeLibrary.LibraryPage`;
- the slices' state objects;
- the tables (`ProjectTable`, `SkillTable`, `ResumeTable`, each a `map` from primary key to row).

Loops in the source keep theirs:

- the text exporter's `+=` over experiences;
- the chart's status counters;
- the skill grouping `reduce`;
- the table scans and `ORDER BY` sorts;
- the `GROUP BY` tally.

Pure switches, filters and record assembly are functions, with lemmas relating them to each other.

Conventions throughout:

- **Parameters:** ids (`Date.now()`, `uuidv4()`), clock readings, parsed years, the data URL a `FileReader` yields and the canvas encoding are all parameters.
- **JSON:** stringify and parse are an identity round trip.
- **Optional values:** an optional field is an `Option`; a JavaScript truthy string is `Strings.Truthy` (present and non-empty).
- **Text comparison:** SQLite compares text by code point (`Strings.StrLe`).

The photo crop follows `PhotoUploader.tsx`: the image moves behind a fixed 120×160 frame, and the drag is never clamped.

## Model

| member | source | states |
|---|---|---|
| PhotoUploader.BeforeUpload | frontend/src/components/PhotoUploader.tsx:28-51 | accepted (read, no upload) iff the type is exactly JPEG or PNG and the size is strictly below `maxSize` MiB; the wrong type is refused first, then an oversize file |
| PhotoUploader.DefaultLimitIsStrict | frontend/src/components/PhotoUploader.tsx:16-38 | with the default 10 MiB, a JPEG or PNG is read iff it is at most 10 MiB less one byte; from 10 MiB on it is refused as too large |
| PhotoUploader.FinalCrop | frontend/src/components/PhotoUploader.tsx:71-76 | the clamped offset never exceeds `scaled - frame`, is non-negative iff the scaled image covers the frame, and keeps an in-range offset |
| PhotoUploader.CropDraw | frontend/src/components/PhotoUploader.tsx:66-89 | the destination is always the 120×160 canvas; the sampled rectangle is the frame divided by the zoom, in 3:4 |
| PhotoUploader.CropInsideImage | frontend/src/components/PhotoUploader.tsx:66-89 | when the zoomed image covers the frame, the sampled rectangle lies inside the image |
| PhotoUploader.Uploader.constructor | frontend/src/components/PhotoUploader.tsx:18-22 | no dialog, position (0,0), zoom 100, no preview |
| PhotoUploader.Uploader.ChooseFile | frontend/src/components/PhotoUploader.tsx:28-50 | the decision is `BeforeUpload`'s; an accepted file opens the dialog with position and zoom reset; a refused one changes nothing |
| PhotoUploader.Uploader.SetZoom | frontend/src/components/PhotoUploader.tsx:233-239 | the slider sets the zoom within 50..200 |
| PhotoUploader.Uploader.MouseDown | frontend/src/components/PhotoUploader.tsx:259-262 | records the press offset `client - position` |
| PhotoUploader.Uploader.MouseMove | frontend/src/components/PhotoUploader.tsx:264-269 | the new position is the position at the press plus the pointer's displacement, unclamped; returning to the press point restores it; no press, no move |
| PhotoUploader.Uploader.MouseUp | frontend/src/components/PhotoUploader.tsx:271-274 | the drag ends |
| PhotoUploader.Uploader.CropComplete | frontend/src/components/PhotoUploader.tsx:54-97 | with no image, nothing happens; otherwise the image is drawn through `CropDraw`, `onChange` gets the encoding once and the dialog closes |
| PhotoUploader.Uploader.CancelCrop | frontend/src/components/PhotoUploader.tsx:221-223 | the dialog closes |
| PhotoUploader.Uploader.Preview | frontend/src/components/PhotoUploader.tsx:101-106 | opens the preview with the photo only when a photo is present |
| PhotoUploader.Uploader.ClosePreview | frontend/src/components/PhotoUploader.tsx:317 | the preview closes |
| PhotoUploader.DeletePhoto | frontend/src/components/PhotoUploader.tsx:184-188 | the delete button emits `''` |
| FileLimits.SizeBelowBoundary | frontend/src/components/PhotoUploader.tsx:35 | for every byte count and whole MiB limit, `size / 1024 / 1024 < limit` holds iff the size is at most the limit in bytes less one |
| ProjectSlice.MockProjects | frontend/src/store/slices/projectSlice.ts:12-41 | the two mock projects with ids "1" and "2" |
| ProjectSlice.Storage.Current | frontend/src/store/slices/projectSlice.ts:96-97 | the stored list, or the mock list when the slot is empty |
| ProjectSlice.Storage.FetchProjects | frontend/src/store/slices/projectSlice.ts:44-60 | a stored list is returned unchanged and not rewritten; otherwise the mock list is stored and returned |
| ProjectSlice.Storage.CreateProject | frontend/src/store/slices/projectSlice.ts:62-87 | storage becomes the current list with the completed project appended, which is returned |
| ProjectSlice.Storage.FetchProjectById | frontend/src/store/slices/projectSlice.ts:89-106 | the first project with the id, or a rejection with '项目不存在' |
| ProjectSlice.Storage.UpdateProject | frontend/src/store/slices/projectSlice.ts:108-131 | every stored project with the id is replaced, length kept, others untouched; the returned project carries the new timestamp |
| ProjectSlice.FirstWithId | frontend/src/store/slices/projectSlice.ts:99 | `find`: nothing iff no project has the id; otherwise the project at some index with that id, and none before that index has it |
| ProjectSlice.ReplaceById | frontend/src/store/slices/projectSlice.ts:119-121 | same length; matching positions hold the update, others are unchanged |
| ProjectSlice.FirstWithIdIsFirst | frontend/src/store/slices/projectSlice.ts:99 | the first index with the id is what `find` returns |
| ProjectSlice.CreateThenFetch | frontend/src/store/slices/projectSlice.ts:62-103 | after creating, fetching the new id finds it unless an earlier project already used that id |
| ProjectSlice.ProjectState.constructor | frontend/src/store/slices/projectSlice.ts:4-9 | no projects, idle, no error, nothing selected |
| ProjectSlice.ProjectState.SetCurrentProject | frontend/src/store/slices/projectSlice.ts:138-140 | only `currentProject` changes |
| ProjectSlice.ProjectState.ClearError | frontend/src/store/slices/projectSlice.ts:141-143 | only `error` changes, to null |
| ProjectSlice.ProjectState.Pending | frontend/src/store/slices/projectSlice.ts:147-149 | `loading` becomes true |
| ProjectSlice.ProjectState.FetchProjectsFulfilled | frontend/src/store/slices/projectSlice.ts:150-153 | idle, projects replaced by the payload |
| ProjectSlice.ProjectState.FetchProjectsRejected | frontend/src/store/slices/projectSlice.ts:154-157 | idle, error is the message or '获取项目列表失败' |
| ProjectSlice.ProjectState.CreateProjectFulfilled | frontend/src/store/slices/projectSlice.ts:158-160 | the payload is appended; nothing else changes, `loading` included |
| ProjectSlice.ProjectState.FetchProjectByIdFulfilled | frontend/src/store/slices/projectSlice.ts:164-167 | idle, `currentProject` is the payload |
| ProjectSlice.ProjectState.FetchProjectByIdRejected | frontend/src/store/slices/projectSlice.ts:168-171 | idle, error is the message or '获取项目详情失败' |
| ProjectSlice.ProjectState.UpdateProjectFulfilled | frontend/src/store/slices/projectSlice.ts:172-178 | only the first entry with the id is replaced, the list is unchanged without one; `currentProject` is the payload either way |
| ProjectSlice.FirstIndexOfId | frontend/src/store/slices/projectSlice.ts:173 | `findIndex`: -1 iff no entry has the id, otherwise the first such index |
| ProjectSlice.UpdateDivergesOnDuplicateIds | frontend/src/store/slices/projectSlice.ts:119-178 | with two projects sharing an id, storage replaces both and the store only the first |
| ResumeExporter.FileName | frontend/src/utils/resumeExporter.ts:25 | `<name>_简历.<extension>` |
| ResumeExporter.ExportToPdf | frontend/src/utils/resumeExporter.ts:14-38 | the fixed placeholder blob as `application/pdf`, under the `.pdf` name |
| ResumeExporter.PdfIgnoresResume | frontend/src/utils/resumeExporter.ts:21 | any two resumes give the same PDF content |
| ResumeExporter.ExportToText | frontend/src/utils/resumeExporter.ts:188-238 | the `+=` loop builds exactly `TextContent`, as `text/plain` under the `.txt` name |
| ResumeExporter.AppendExperience | frontend/src/utils/resumeExporter.ts:204-219 | one experience's lines are appended, achievements by their own loop |
| ResumeExporter.TextStartsWithHeader | frontend/src/utils/resumeExporter.ts:191-196 | the text begins with name, title, a blank line, the contact block and the bio |
| ResumeExporter.TextSummaryIff | frontend/src/utils/resumeExporter.ts:198-200 | the 个人简介 block is present iff the summary is truthy |
| ResumeExporter.TextIgnoresOtherSections | frontend/src/utils/resumeExporter.ts:191-219 | education, skills, projects and template never change the text |
| ResumeExporter.TextExperienceBlocksInOrder | frontend/src/utils/resumeExporter.ts:202-219 | one block per experience in input order |
| ResumeExporter.TextExperienceEndsWithBlankLine | frontend/src/utils/resumeExporter.ts:218 | every experience block ends with a blank line |
| ResumeExporter.AchievementsEndWithNewline | frontend/src/utils/resumeExporter.ts:210-212 | the achievement lines end with a newline |
| ResumeExporter.ListSection | frontend/src/utils/resumeExporter.ts:97-161 | a section is emitted iff its list is non-empty |
| ResumeExporter.ExportToHtml | frontend/src/utils/resumeExporter.ts:43-185 | the HTML page as `text/html` under the `.html` name |
| ResumeExporter.SkillsSection | frontend/src/utils/resumeExporter.ts:133-144 | the skills section is empty iff the resume has no skills |
| ResumeExporter.HtmlSkillOnPage | frontend/src/utils/resumeExporter.ts:133-144 | every skill's `name (category)` chip lies on the page inside the section's `<div>`, between the chips before it and the chips after it |
| ResumeExporter.HtmlSkillsInOrder | frontend/src/utils/resumeExporter.ts:137-141 | the chips follow the skills' input order: the page up to chip k+1 is the page up to chip k, then skill k's label, then one closing and one opening span |
| ResumeExporter.HtmlTitleVerbatim | frontend/src/utils/resumeExporter.ts:52 | the name reaches `<title>` unescaped |
| ResumeExporter.ExportResume | frontend/src/utils/resumeExporter.ts:245-259 | dispatches pdf (the default), html or text; anything else is rejected with '不支持的导出格式' |
| ExperienceEditor.RemoveById | frontend/src/components/resume-templates/ExperienceEditor.tsx:50 | keeps exactly the entries with another id |
| ExperienceEditor.RemoveByIdConcat | frontend/src/components/resume-templates/ExperienceEditor.tsx:50 | deletion is piecewise, so survivors keep their order |
| ExperienceEditor.NonBlank | frontend/src/components/resume-templates/ExperienceEditor.tsx:60 | the non-blank inputs, in order |
| ExperienceEditor.Saved | frontend/src/components/resume-templates/ExperienceEditor.tsx:56-72 | editing keeps length and replaces entries with the edited id; adding appends one entry; achievements come from the inputs |
| ExperienceEditor.NewItemId | frontend/src/components/resume-templates/ExperienceEditor.tsx:145 | the blank entry's id starts with `exp-` |
| ExperienceEditor.SavedHasNoBlankAchievements | frontend/src/components/resume-templates/ExperienceEditor.tsx:58-61 | no saved achievement is blank |
| ExperienceEditor.Editor.constructor | frontend/src/components/resume-templates/ExperienceEditor.tsx:30-32 | modal hidden, nothing edited, no inputs |
| ExperienceEditor.Editor.AddClick | frontend/src/components/resume-templates/ExperienceEditor.tsx:35-39 | the modal opens empty |
| ExperienceEditor.Editor.EditClick | frontend/src/components/resume-templates/ExperienceEditor.tsx:42-46 | the modal opens with the experience and its achievements as inputs |
| ExperienceEditor.Editor.DeleteClick | frontend/src/components/resume-templates/ExperienceEditor.tsx:49-52 | hands `RemoveById` to the parent |
| ExperienceEditor.Editor.Save | frontend/src/components/resume-templates/ExperienceEditor.tsx:56-79 | hands `Saved` to the parent, then hides and resets the modal |
| ExperienceEditor.Editor.Cancel | frontend/src/components/resume-templates/ExperienceEditor.tsx:155-159 | hides and resets the modal |
| ExperienceEditor.Editor.AddAchievementInput | frontend/src/components/resume-templates/ExperienceEditor.tsx:82-84 | appends `''` |
| ExperienceEditor.Editor.UpdateAchievement | frontend/src/components/resume-templates/ExperienceEditor.tsx:87-91 | only the given index changes |
| ExperienceEditor.Editor.RemoveAchievementInput | frontend/src/components/resume-templates/ExperienceEditor.tsx:94-97 | only the given index is dropped |
| EducationEditor.RemoveById | frontend/src/components/resume-templates/EducationEditor.tsx:66 | keeps exactly the entries with another id |
| EducationEditor.RemoveByIdConcat | frontend/src/components/resume-templates/EducationEditor.tsx:66 | deletion is piecewise, so survivors keep their order |
| EducationEditor.NewId | frontend/src/components/resume-templates/EducationEditor.tsx:83 | the form's id when truthy, else `edu-<now>`; never empty |
| EducationEditor.Saved | frontend/src/components/resume-templates/EducationEditor.tsx:72-89 | editing keeps length and replaces entries with the edited id by the values; adding appends one entry with a non-empty id |
| EducationEditor.Editor.constructor | frontend/src/components/resume-templates/EducationEditor.tsx:40-41 | modal hidden, nothing edited |
| EducationEditor.Editor.AddClick | frontend/src/components/resume-templates/EducationEditor.tsx:44-47 | the modal opens empty |
| EducationEditor.Editor.EditClick | frontend/src/components/resume-templates/EducationEditor.tsx:50-62 | a missing entry is ignored; otherwise the modal hides and a re-open timer is armed |
| EducationEditor.Editor.EditTimerFires | frontend/src/components/resume-templates/EducationEditor.tsx:58-61 | the oldest timer's copy becomes the edited entry and the modal opens |
| EducationEditor.Editor.DeleteClick | frontend/src/components/resume-templates/EducationEditor.tsx:65-68 | hands `RemoveById` to the parent |
| EducationEditor.Editor.Save | frontend/src/components/resume-templates/EducationEditor.tsx:72-94 | hands `Saved` to the parent, then hides the modal with nothing edited |
| EducationEditor.Editor.Cancel | frontend/src/components/resume-templates/EducationEditor.tsx:162-165 | hides the modal with nothing edited |
| StandardTemplate.YearText | frontend/src/components/resume-templates/StandardResumeTemplate.tsx:26 | a non-empty year text ending in a digit, or `NaN` |
| StandardTemplate.FormatDate | frontend/src/components/resume-templates/StandardResumeTemplate.tsx:22-35 | `''` without a start; `<year> 至今` for an open end; `<year> - <year>` otherwise |
| StandardTemplate.FormatDateOpenIff | frontend/src/components/resume-templates/StandardResumeTemplate.tsx:27-31 | a dated entry ends in ` 至今` iff its end is open |
| StandardTemplate.Separated | frontend/src/components/resume-templates/StandardResumeTemplate.tsx:134-143 | a `|` and the value, both only for a truthy field |
| StandardTemplate.InfoSpansShape | frontend/src/components/resume-templates/StandardResumeTemplate.tsx:133-143 | the line has the gender once and two spans per later truthy field; gender has no separator |
| StandardTemplate.InfoSpansLeadingSeparator | frontend/src/components/resume-templates/StandardResumeTemplate.tsx:133-143 | without a gender the line starts with `|` once a later field is set |
| StandardTemplate.Present | frontend/src/components/resume-templates/StandardResumeTemplate.tsx:133-143 | the truthy fields' values, in order |
| StandardTemplate.Interleave | frontend/src/components/resume-templates/StandardResumeTemplate.tsx:133-143 | `2n-1` spans, starting and ending with a value |
| StandardTemplate.InterleaveAt | frontend/src/components/resume-templates/StandardResumeTemplate.tsx:133-143 | values at even positions, separators at odd ones |
| StandardTemplate.InfoSpansBetweenShape | frontend/src/components/resume-templates/StandardResumeTemplate.tsx:133-143 | the corrected line has separators only between present values |
| StandardTemplate.Sections | frontend/src/components/resume-templates/StandardResumeTemplate.tsx:206-745 | summary iff truthy, projects iff non-empty; education, experience, activities and qualifications always; header first, qualifications last |
| StandardTemplate.ProjectHeadingsDistinct | frontend/src/components/resume-templates/StandardResumeTemplate.tsx:547 | project headings never repeat |
| StandardTemplate.ProjectHeadingNumber | frontend/src/components/resume-templates/StandardResumeTemplate.tsx:547 | heading `index` is the fixed prefix followed by digits that read back as `index + 1` |
| StandardTemplate.AddSkillGrouped | frontend/src/components/resume-templates/StandardResumeTemplate.tsx:39-42 | one reducer step keeps the groups exact for the skills seen |
| StandardTemplate.GroupSkills | frontend/src/components/resume-templates/StandardResumeTemplate.tsx:38-43 | distinct categories; each group is its category's skills in input order; every skill is grouped; sizes sum to the count; non-empty input gives a group |
| Types.Complete | frontend/src/store/slices/projectSlice.ts:68-73 | the draft's fields with the assigned id and timestamps |
| Types.CountStatusAppend | frontend/src/components/ProjectStatusChart.tsx:19-21 | a count grows by exactly one for a project with that status |
| Strings.ErrorText | frontend/src/store/slices/projectSlice.ts:156 | the message when truthy, otherwise the fallback |
| Strings.Interpolate | frontend/src/utils/resumeExporter.ts:206 | `${x}` of an absent value is `undefined` |
| ProjectRoutes.Parsed | backend/src/routes/projectRoutes.ts:14-21 | id and timestamps kept; missing lists read as `[]` |
| ProjectRoutes.MergedColumns | backend/src/routes/projectRoutes.ts:118-127 | an omitted column is kept, a supplied one replaced; `end_date` is always written |
| ProjectRoutes.MergedEmptyRequest | backend/src/routes/projectRoutes.ts:118-128 | an empty body only clears `end_date` and sets `updated_at` |
| ProjectRoutes.MergedIdempotent | backend/src/routes/projectRoutes.ts:118-128 | repeating a PUT changes nothing more |
| ProjectRoutes.NewRowDefaultsPassChecks | backend/src/database/init.ts:33-34 | the POST defaults lie in the CHECK domains |
| ProjectRoutes.NewRowOutsideDomainFails | backend/src/database/init.ts:33-34 | any supplied status or priority outside the CHECK domains (the front end's `urgent`, say) breaks the INSERT |
| ProjectRoutes.MergedKeepsChecks | backend/src/routes/projectRoutes.ts:118-128 | a PUT without status or priority keeps a valid row valid |
| ProjectRoutes.ParsedAll | backend/src/routes/projectRoutes.ts:14-21 | one parsed project per row, in order |
| ProjectRoutes.ParsedAllMembers | backend/src/routes/projectRoutes.ts:11-22 | the list holds exactly the table's rows |
| ProjectRoutes.ParsedAllNewestFirst | backend/src/routes/projectRoutes.ts:12 | newest `created_at` first |
| ProjectRoutes.ProjectTable.List | backend/src/routes/projectRoutes.ts:9-26 | 200 with every row once, parsed, newest first |
| ProjectRoutes.ProjectTable.Get | backend/src/routes/projectRoutes.ts:29-52 | 404 iff the id is unknown; otherwise the parsed row with exactly its documents |
| ProjectRoutes.ProjectTable.Post | backend/src/routes/projectRoutes.ts:55-99 | 400 and no change without truthy title and start date; 500 for a taken id or CHECK failure; otherwise 201 with the new row, `created_at == updated_at` |
| ProjectRoutes.ProjectTable.Put | backend/src/routes/projectRoutes.ts:102-151 | 404 and no change for an unknown id; 500 on CHECK failure; otherwise the merged row |
| ProjectRoutes.ProjectTable.Delete | backend/src/routes/projectRoutes.ts:154-161 | 204, and the row is gone |
| SkillRoutes.MergedYears | backend/src/routes/skillRoutes.ts:84 | a supplied 0 replaces `years`; an omitted value keeps it |
| SkillRoutes.MergedEmptyRequest | backend/src/routes/skillRoutes.ts:80-88 | an empty body only sets `updated_at` |
| SkillRoutes.MergedIdempotent | backend/src/routes/skillRoutes.ts:80-88 | repeating a PUT changes nothing more |
| SkillRoutes.NewRowDefaults | backend/src/routes/skillRoutes.ts:39-45 | level `intermediate`, years 0, description `''` |
| SkillRoutes.LevelTextMisorders | backend/src/routes/skillRoutes.ts:27 | ordered as text, `beginner` sorts before `advanced` |
| SkillRoutes.LevelRankOrders | backend/src/routes/skillRoutes.ts:27 | ranked, a stronger level sorts strictly first |
| SkillRoutes.TallyRows | backend/src/routes/skillRoutes.ts:116-118 | one entry per category with its row count |
| SkillRoutes.SortedCounts | backend/src/routes/skillRoutes.ts:119 | sorting by count keeps the tally's counts |
| SkillRoutes.SortedDescending | backend/src/routes/skillRoutes.ts:119 | the result is in descending count order |
| SkillRoutes.SkillTable.List | backend/src/routes/skillRoutes.ts:9-19 | every row once, by category then name |
| SkillRoutes.SkillTable.ByCategory | backend/src/routes/skillRoutes.ts:22-34 | exactly the category's rows, each once, level text descending then years descending |
| SkillRoutes.SkillTable.ByCategoryRanked | backend/src/routes/skillRoutes.ts:22-34 | the same rows, each once, strongest level first |
| SkillRoutes.SkillTable.Categories | backend/src/routes/skillRoutes.ts:113-126 | distinct categories with their counts, covering every row, counts summing to the row count, descending |
| SkillRoutes.SkillTable.Post | backend/src/routes/skillRoutes.ts:37-64 | 400 and no change without truthy name and category; 500 for a taken id or bad level; otherwise 201 with the new row |
| SkillRoutes.SkillTable.Put | backend/src/routes/skillRoutes.ts:67-100 | 404 for an unknown id; 500 on CHECK failure; otherwise the coalesced row |
| SkillRoutes.SkillTable.Delete | backend/src/routes/skillRoutes.ts:103-110 | 204, and the row is gone |
| ResumeRoutes.Parsed | backend/src/routes/resumeRoutes.ts:75-81 | the row's fields under its id, lists parsed |
| ResumeRoutes.CreatedRoundTrip | backend/src/routes/resumeRoutes.ts:39-81 | POST's answer is the request with lists `[]`, summary `''` and template `modern` by default |
| ResumeRoutes.MergedEmptyRequest | backend/src/routes/resumeRoutes.ts:103-124 | an empty body only sets `updated_at` |
| ResumeRoutes.MergedIdempotent | backend/src/routes/resumeRoutes.ts:103-124 | repeating a PUT changes nothing more |
| ResumeRoutes.HistoryOf | backend/src/routes/resumeRoutes.ts:146-158 | id, template, summary and timestamps of each row, in order |
| ResumeRoutes.NewestFirst | backend/src/routes/resumeRoutes.ts:11-17 | a `created_at DESC` order puts the newest first |
| ResumeRoutes.ResumeTable.Latest | backend/src/routes/resumeRoutes.ts:9-33 | 404 iff the table is empty; otherwise a parsed row with the greatest `created_at` |
| ResumeRoutes.ResumeTable.History | backend/src/routes/resumeRoutes.ts:146-158 | one entry per row: every row's id appears, no id twice, newest first |
| ResumeRoutes.ResumeTable.Post | backend/src/routes/resumeRoutes.ts:36-86 | 400 without personal info; 500 for a taken id or bad template; otherwise 201 with a fresh row; existing rows are never changed |
| ResumeRoutes.ResumeTable.Put | backend/src/routes/resumeRoutes.ts:89-143 | 404 and no change for an unknown id; 500 on CHECK failure; otherwise the merged row |
| StatusChart.AllSlices | frontend/src/components/ProjectStatusChart.tsx:23-27 | four entries in fixed order, each the count of its status |
| StatusChart.GetStatusData | frontend/src/components/ProjectStatusChart.tsx:11-29 | the counting loop yields exactly `StatusData` |
| StatusChart.SumIgnoresEmpty | frontend/src/components/ProjectStatusChart.tsx:28 | dropping zero entries keeps the sum |
| StatusChart.FourCountsCover | frontend/src/components/ProjectStatusChart.tsx:19-21 | in the four-status domain the counts sum to the project count |
| StatusChart.StatusDataSums | frontend/src/components/ProjectStatusChart.tsx:12-28 | in that domain the chart's values sum to the project count |
| StatusChart.StatusDataShape | frontend/src/components/ProjectStatusChart.tsx:23-28 | at most four entries, none zero, each status present iff counted |
| StatusChart.StatusDataOrder | frontend/src/components/ProjectStatusChart.tsx:23-28 | the entries keep the fixed status order |
| StatusChart.StatusDataEmpty | frontend/src/components/ProjectStatusChart.tsx:23-28 | no projects, no entries |
| Dashboard.FilterCountsStatus | frontend/src/pages/Dashboard.tsx:54 | a status filter's length is that status's count |
| Dashboard.Stats | frontend/src/pages/Dashboard.tsx:45 | the total is the project count |
| Dashboard.StatsCounts | frontend/src/pages/Dashboard.tsx:54-62 | in-progress and completed are their counts and sum to at most the total |
| Dashboard.FileTotalConcat | frontend/src/pages/Dashboard.tsx:72 | the file total adds up over concatenation |
| Dashboard.FileTotalZero | frontend/src/pages/Dashboard.tsx:72 | the total is 0 iff no project has files |
| Dashboard.Panel | frontend/src/pages/Dashboard.tsx:91-111 | cards iff there are projects |
| ProjectLabels.StatusColor | frontend/src/components/ProjectCard.tsx:18-26 | total; `default` iff not completed, in-progress or on-hold |
| ProjectLabels.StatusText | frontend/src/components/ProjectCard.tsx:28-36 | the four labels; anything else unchanged |
| ProjectLabels.StatusTextInjective | frontend/src/components/ProjectCard.tsx:28-36 | different statuses have different labels |
| ProjectLabels.PriorityColor | frontend/src/pages/ProjectDetail.tsx:101-109 | total; `default` iff not urgent, high, medium or low |
| ProjectLabels.PriorityText | frontend/src/pages/ProjectDetail.tsx:111-119 | 紧急, 高, 中, 低; anything else unchanged |
| ProjectLabels.Progress | frontend/src/components/ProjectCard.tsx:52-60 | within 0..100; 100 iff completed; 0 iff unknown |
| ProjectCard.TechnologyRow | frontend/src/components/ProjectCard.tsx:140-153 | the first min(3,n) shown; overflow iff n > 3; shown plus overflow is n |
| ProjectCard.TagsRow | frontend/src/components/ProjectCard.tsx:155-165 | at most the first three, no overflow tag |
| ProjectCard.FileCount | frontend/src/components/ProjectCard.tsx:135 | the document count, 0 without a list |
| ProjectCard.Card | frontend/src/components/ProjectCard.tsx:62-167 | the rows appear iff their lists are non-empty; progress within 0..100 |
| ProjectCard.TechnologiesAccounted | frontend/src/components/ProjectCard.tsx:143-150 | every technology is shown or counted in the overflow |
| ProjectsPage.TechnologySummary | frontend/src/pages/Projects.tsx:119 | the `, `-join, or 无 when the join is empty |
| ProjectsPage.TechnologySummaryPlaceholder | frontend/src/pages/Projects.tsx:119 | 无 exactly for an empty list or a single empty name |
| ProjectsPage.View | frontend/src/pages/Projects.tsx:130-139 | the spinner while loading, else the list iff non-empty |
| ProjectDetail.LoadStart | frontend/src/pages/ProjectDetail.tsx:38-53 | no id leaves; a project in the store is shown; otherwise it is fetched |
| ProjectDetail.Payload | frontend/src/pages/ProjectDetail.tsx:56 | a payload iff fulfilled |
| ProjectDetail.AfterFetch | frontend/src/pages/ProjectDetail.tsx:55-61 | shows a fulfilled payload, otherwise leaves with '项目不存在' |
| ProjectDetail.StoreFirst | frontend/src/pages/ProjectDetail.tsx:50-53 | the store's first match is shown without fetching |
| ProjectDetail.EditTarget | frontend/src/pages/ProjectDetail.tsx:75-79 | the edit route iff a project is loaded |
| ProjectCreate.BeforeUpload | frontend/src/pages/ProjectCreate.tsx:66-72 | accepts iff the size is strictly below 10 MiB; the edit page's guard is the same rule |
| ProjectCreate.AfterPick | frontend/src/pages/ProjectCreate.tsx:66-79 | the picked file is appended whatever the guard said |
| ProjectCreate.AfterPickIgnoring | frontend/src/pages/ProjectCreate.tsx:66-72 | a refused file is left out |
| ProjectCreate.DocumentsOf | frontend/src/pages/ProjectCreate.tsx:45-52 | one document per file in order: id from uid, type `other`, url or `''` |
| ProjectCreate.OnFinish | frontend/src/pages/ProjectCreate.tsx:34-53 | fails iff a range bound is null; otherwise the draft with priority `medium` and `[]` lists by default, dates from the period or now |
| ProjectCreate.OversizeFileSaved | frontend/src/pages/ProjectCreate.tsx:66-79 | an oversize file ends up among the saved documents |
| ProjectCreate.IgnoringKeepsLimit | frontend/src/pages/ProjectCreate.tsx:66-72 | with refusals ignored every listed file and saved document is under the limit |
| ProjectEdit.PeriodOf | frontend/src/pages/ProjectEdit.tsx:90-95 | [start, end] with an end, [start, null] with only a start, null otherwise |
| ProjectEdit.FilesOf | frontend/src/pages/ProjectEdit.tsx:100-106 | one file per document: id, name, url and size |
| ProjectEdit.Saved | frontend/src/pages/ProjectEdit.tsx:117-136 | fails iff the range start is null; keeps id and createdAt and overwrites the rest |
| ProjectEdit.UntouchedSaveRoundTrip | frontend/src/pages/ProjectEdit.tsx:82-136 | saving an untouched form gives back the project, except documents, a falsy end and `updatedAt` |
| ProjectEdit.DocumentsRoundTrip | frontend/src/pages/ProjectEdit.tsx:100-134 | documents to files and back keep id, name, url and size; type becomes `other` |
| ProjectEdit.EditPage.constructor | frontend/src/pages/ProjectEdit.tsx:36-39 | loading, not submitting, no files, no project |
| ProjectEdit.EditPage.PopulateForm | frontend/src/pages/ProjectEdit.tsx:82-109 | the form always; the file list only for a non-empty document list |
| ProjectEdit.EditPage.Show | frontend/src/pages/ProjectEdit.tsx:55-63 | the project is set and fills the form |
| ProjectEdit.EditPage.LoadStart | frontend/src/pages/ProjectEdit.tsx:43-58 | the store's project is shown without fetching (the location kept); else a fetch is requested and nothing else changes; no id leaves with the project, form and file list untouched |
| ProjectEdit.EditPage.LoadFetched | frontend/src/pages/ProjectEdit.tsx:60-78 | a payload is shown (the location kept); no payload leaves for the list with the project, form and file list untouched |
| ProjectEdit.EditPage.OnFinish | frontend/src/pages/ProjectEdit.tsx:111-149 | nothing without a project; otherwise `Saved` is handed over and the page goes to the detail route |
| ProjectEdit.EditPage.OnFilesChange | frontend/src/pages/ProjectEdit.tsx:151-164 | the file list is the widget's list |
| ResumeLibrary.Example | frontend/src/pages/ResumeLibrary.tsx:65-122 | the seed entry, id "1", template `standard` |
| ResumeLibrary.WithoutResumeMembers | frontend/src/pages/ResumeLibrary.tsx:163 | keeps exactly the entries with another `resumeId` |
| ResumeLibrary.WithoutResumeStable | frontend/src/pages/ResumeLibrary.tsx:163 | deleting an unused id changes nothing; deleting twice is deleting once |
| ResumeLibrary.WithoutResumeConcat | frontend/src/pages/ResumeLibrary.tsx:163 | deletion is piecewise, so order is kept |
| ResumeLibrary.TemplateLabel | frontend/src/pages/ResumeLibrary.tsx:197-204 | the three labels; anything else unchanged |
| ResumeLibrary.LibraryPage.constructor | frontend/src/pages/ResumeLibrary.tsx:47-50 | loading, nothing selected, storage as given |
| ResumeLibrary.LibraryPage.Load | frontend/src/pages/ResumeLibrary.tsx:53-133 | a stored list is shown and not rewritten; an empty slot is seeded and stored |
| ResumeLibrary.LibraryPage.Delete | frontend/src/pages/ResumeLibrary.tsx:154-173 | storage and state get the same filtered list |
| ResumeLibrary.LibraryPage.Edit | frontend/src/pages/ResumeLibrary.tsx:146-151 | stores `editResumeId`, then navigates to `/resume` |
| ResumeLibrary.LibraryPage.Preview | frontend/src/pages/ResumeLibrary.tsx:176-179 | selects the entry and opens the modal |
| ResumeLibrary.LibraryPage.ClosePreview | frontend/src/pages/ResumeLibrary.tsx:297-299 | only hides the modal |
| ResumeSlice.FetchLatestOutcome | frontend/src/store/slices/resumeSlice.ts:12-21 | fulfilled iff the reply succeeded; otherwise rejected with 'Failed to fetch resume' |
| ResumeSlice.GenerateOutcome | frontend/src/store/slices/resumeSlice.ts:23-38 | fulfilled iff ok; otherwise rejected with 'Failed to generate resume' |
| ResumeSlice.ResumeState.constructor | frontend/src/store/slices/resumeSlice.ts:4-9 | no resume, not loading or generating, no error |
| ResumeSlice.ResumeState.ClearError | frontend/src/store/slices/resumeSlice.ts:44-46 | only `error` changes, to null |
| ResumeSlice.ResumeState.SetGenerating | frontend/src/store/slices/resumeSlice.ts:47-49 | only `generating` changes, to the payload |
| ResumeSlice.ResumeState.FetchLatestPending | frontend/src/store/slices/resumeSlice.ts:53-55 | `loading` becomes true |
| ResumeSlice.ResumeState.FetchLatestSettled | frontend/src/store/slices/resumeSlice.ts:56-63 | idle; the payload on success, the message or '获取简历失败' on failure |
| ResumeSlice.ResumeState.GeneratePending | frontend/src/store/slices/resumeSlice.ts:64-66 | `generating` becomes true |
| ResumeSlice.ResumeState.GenerateSettled | frontend/src/store/slices/resumeSlice.ts:67-73 | not generating; resume untouched; on failure the message or '生成简历失败' |
| ResumeSlice.EmptyTableShowsThunkMessage | frontend/src/store/slices/resumeSlice.ts:16-17 | an empty table's 404 shows 'Failed to fetch resume', never the default |
| ResumeSlice.ThunkMessagesTruthy | frontend/src/store/slices/resumeSlice.ts:16-34 | the thunks' own rejections always carry a message |
| SkillSlice.FromRows | frontend/src/store/slices/skillSlice.ts:12-18 | the stored rows, in order |
| SkillSlice.CreateSkillOutcome | frontend/src/store/slices/skillSlice.ts:20-32 | fulfils with whatever body came back, error objects included |
| SkillSlice.CreateSkillChecked | frontend/src/store/slices/skillSlice.ts:20-32 | fulfils iff the reply succeeded, with the stored row |
| SkillSlice.SkillState.constructor | frontend/src/store/slices/skillSlice.ts:4-9 | no skills, idle, no error, no categories |
| SkillSlice.SkillState.ClearError | frontend/src/store/slices/skillSlice.ts:46-48 | only `error` changes, to null |
| SkillSlice.SkillState.FetchSkillsPending | frontend/src/store/slices/skillSlice.ts:52-54 | `loading` becomes true |
| SkillSlice.SkillState.FetchSkillsFulfilled | frontend/src/store/slices/skillSlice.ts:55-58 | idle, skills replaced, error untouched |
| SkillSlice.SkillState.FetchSkillsRejected | frontend/src/store/slices/skillSlice.ts:59-62 | idle, the message or the default error |
| SkillSlice.SkillState.CreateSkillFulfilled | frontend/src/store/slices/skillSlice.ts:63-65 | the payload is appended, nothing else changes |
| SkillSlice.SkillState.FetchCategoriesFulfilled | frontend/src/store/slices/skillSlice.ts:66-68 | only the categories are replaced |
| SkillSlice.RefusedCreateIsPushed | frontend/src/store/slices/skillSlice.ts:20-65 | a refused create pushes an error object into the skill list |
| SkillSlice.CheckedCreateKeepsRows | frontend/src/store/slices/skillSlice.ts:20-65 | with the reply checked the list holds only stored rows |
| AiSlice.AiState.constructor | frontend/src/store/slices/aiSlice.ts:25-29 | no usage, idle, no error |
| AiSlice.AiState.Reduce | frontend/src/store/slices/aiSlice.ts:54-75 | clearError clears only the error; fetchAIUsage pending, fulfilled and rejected set loading, usage and error; any analyzeSkills action changes nothing |

## Left out

- Rendering, styling, hover effects, messages shown with `message.success`/`error`, and React re-render timing are not modelled.
- Image decoding and the canvas are parameters: the natural image size, the data URL `FileReader` yields, and the JPEG encoding `toDataURL` returns. The document-level mouse listener registration becomes the `dragStart` field.
- `Blob`, object URLs and anchor downloads are left out. An export is its file name, MIME type and content.
- Time is a parameter. `Date.now()`, `new Date().toISOString()`, `getFullYear`, `toLocaleDateString` and the range picker's `toISOString` are either parameters or an opaque ISO string.
- The delays are collapsed, so only their outcome is modelled. These are the `setTimeout` delays of the project thunks, the resume library load and the education editor. The education editor keeps its pending re-open copies, so each timer's firing is still a separate step.
- SQL and the connection are modelled by their effect on `map` tables.
  - Tie order within an `ORDER BY` is whatever the sort gives; SQLite does not promise one either.
  - `ON DELETE CASCADE` of documents is not modelled. The documents table is fixed when a `ProjectTable` is built.
  - A failing database call, a 500 with a "Failed to fetch …" message, is modelled only where a CHECK constraint or a taken id causes it.
- The shape of JSON request bodies is not modelled. A request property is either present or absent: an explicit `null` is the same as an omitted one, and values of the wrong type are excluded.
- Network failures of `fetch` are not modelled. The routes' answers are the only replies. `fetchSkills`, `fetchCategories` and `fetchAIUsage` do not check `response.ok`, so their payload is whatever body arrives; the model passes the payload in directly.
- The `analyzeSkills` request body and the AI routes are left out. The AI routes make outbound HTTP calls with floating-point costs. Usage values are stored as given.
- AddEditItemModal's form lifecycle is left out. The form values it hands back are parameters of the editors' `Save`.
- ResumeExporter.ExportToHtml: the template literal's indentation and blank lines are normalised. Each tag line ends in one newline without leading spaces, and the style sheet is a single line. Tags, text, and the order and nesting of sections are the source's.
- StandardTemplate.GroupSkills: the reducer's accumulator is a plain `{}`, so `groups[skill.category] || []` reads inherited `Object.prototype` members. A category named `constructor`, `toString`, `valueOf`, `hasOwnProperty` or `__proto__` yields a truthy non-array, `group.push` throws a `TypeError`, and the template does not render. The model groups such a skill like any other.
- ProjectSlice.Storage and ResumeLibrary.LibraryPage.Load assume that the browser's `projects` and `resumes` slots hold well-formed JSON of the right shape. A malformed slot makes `JSON.parse` throw. In the project thunks (projectSlice.ts:53, :77, :97, :116) the thunk then rejects with the parse error's message. In the library (ResumeLibrary.tsx:62, caught at :126) the list stays empty and loading ends. The slot's type, `Option<seq<…>>`, cannot represent this path.
- `Object.entries` order is modelled as insertion order for the skill groups. Category names that JavaScript lists first, such as integer-like keys, are not distinguished.
- StatusChart.GetStatusData: a status outside the four values would create an extra `NaN` key. No entry of the chart comes from it, so it is not represented.
- ProjectsPage.TechnologySummary: `technologies` is a required list in the project type, so the missing-list case reads as the empty list.
- ProjectEdit.Saved: the priority select is always filled by `populateForm` and cannot be cleared, so it is a plain string.
- ResumeLibrary.Example: numbers such as the example's `gpa` are kept as their text (`"3.8"`).
- ResumeLibrary.LibraryPage.Load: an empty string in the `resumes` slot is treated as an empty slot.
- Developer scripts, presentational wrappers, application wiring, the store configuration and the type declarations are not part of this model.

## Findings

| source | as written | input that shows it | evidently intended | confidence | as-written member | corrected member |
|---|---|---|---|---|---|---|
| frontend/src/components/resume-templates/StandardResumeTemplate.tsx:133-143 | each field after gender is preceded by a `|` | no gender but an age: the line reads `| 28` | separators only between present values | not executed | StandardTemplate.InfoSpansLeadingSeparator | StandardTemplate.InfoSpansBetweenShape |
| backend/src/routes/skillRoutes.ts:27 | `ORDER BY level DESC` compares the level as text | `beginner` and `advanced`: `beginner` sorts first | strongest level first | not executed | SkillRoutes.LevelTextMisorders | SkillRoutes.LevelRankOrders |
| frontend/src/store/slices/skillSlice.ts:20-32 | `createSkill` returns the body without checking `response.ok`, so `createSkill.fulfilled` pushes it | a POST without a name answers 400 `{error}`, which is pushed into `skills` | reject a failed reply; push only stored rows | not executed | SkillSlice.RefusedCreateIsPushed | SkillSlice.CheckedCreateKeepsRows |
| frontend/src/pages/ProjectCreate.tsx:66-79 | `beforeUpload` returns `false` for a file over 10 MiB, which only stops the upload; the widget still lists the file | an 11 MiB file is picked and then saved among the documents | return `Upload.LIST_IGNORE` so the file is not listed | not executed | ProjectCreate.OversizeFileSaved | ProjectCreate.IgnoringKeepsLimit |

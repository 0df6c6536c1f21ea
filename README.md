# Pure ATS Resume Builder: a verified model of its core

The resume builder is a single-page React application. The user fills in a
resume document: a contact record, a professional summary, and lists of
experience, education, project and skill entries, each entry carrying a
string `id`. The user can import the document from an uploaded PDF, text or
DOCX file through an AI extraction call. The AI can also write the summary.
The page shows the document through one of two templates, Modern and Classic,
and exports the preview as a PDF.

This project models that core in Dafny, one module per source file:

- `Types` covers the document (`types.ts`).
- `Constants` holds the starting document and the template list (`constants.ts`).
- `ResumeForm` holds the form's updaters (`components/ResumeForm.tsx`). Each is a function from the old document to the new one.
- `GeminiService` covers what `parseResume` does to the parsed AI reply, and the background text `generateSummary` sends (`services/geminiService.ts`).
- `ModernTemplate` and `ClassicTemplate` are the two renderers. Each is a pure function from the document, plus the section order for Modern, to an abstract page. The page records which sections appear in which region, in what order, and with which link targets.
- `App` is the page controller (`App.tsx`). It has the file classification and the download file name as functions, and a class `App` whose fields are the controller's state hooks. Its methods are the three handlers and the template selection. Every external call (file reading, DOCX extraction, the AI, the page capture) becomes a parameter holding its result or the value it threw.
- `Text` and `Seqs` are shared helpers. They model JavaScript's `split`, `join`, `endsWith`, `toLowerCase`, the `\s` class, decimal rendering of numbers, and `Array.prototype.filter`/`map`.

Three points about the code as written:

- Neither `App.tsx` nor `components/ResumeForm.tsx` has code that changes the section order. `App.tsx:194-195` passes `sectionOrder` and `setSectionOrder` to the form, but the form's props (`components/ResumeForm.tsx:6-11,50`) take neither, so `sectionOrder` never changes after the controller starts and the model has no move operation.
- Not every section key is rendered by every template. Modern hides the projects section when there are no projects, and Classic never shows projects (`ModernTemplate.EverySectionOnce`, `ClassicTemplate.ProjectsAndWebsiteNotShown`).
- `App.tsx:202-206` hands `sectionOrder` to the preview component, but `components/ResumePreview.tsx:10-11` does not forward it to the template. As written, Modern therefore receives no order, and `sectionOrder.filter` (`components/templates/ModernTemplate.tsx:93`) throws a TypeError on the first render of the default template. The model's `App.App.Preview` renders with the controller's `sectionOrder`, which is what `App.tsx` evidently intends, and `App.App.ModernPreviewShowsEverySection` states what that intended preview shows.

## Model

| member | source | states |
|---|---|---|
| Types.PermutationHoldsEveryKey | types.ts:45 | a section order that is a permutation of the closed five-key enumeration has length 5 and holds every key |
| Constants.Templates | constants.ts:57-60 | the template list is Modern then Classic, exactly two entries, and the names are distinct |
| Constants.InitialResumeData | constants.ts:6-55 | the starting document has an entry in every list, all seven contact fields non-empty, and pairwise distinct ids in each list |
| Constants.InitialContact | constants.ts:7-15 | every one of the seven starting contact fields is non-empty |
| Constants.InitialSkills | constants.ts:50-54 | three starting skill entries with pairwise distinct ids |
| Constants.InitialBulletsOneLineEach | constants.ts:25-29 | the three starting bullets hold no line break |
| Constants.InitialDescriptionRoundTrip | constants.ts:25-29 | submitting the starting description as the textarea shows it (joined by line breaks) leaves the starting document unchanged |
| Constants.InitialModernShowsProjects | constants.ts:42-49 | with the starting document and any permutation of keys, Modern shows every one of the five sections exactly once, projects included |
| Constants.RenderWith | constants.ts:57-60 | a template renders with its own component: Modern gives exactly the Modern renderer's page for the document and the order, and Classic renders the document without the order |
| ResumeForm.SetContactField | components/ResumeForm.tsx:56 | the named contact field takes the value and every other contact field keeps its value |
| ResumeForm.ContactChange | components/ResumeForm.tsx:52-57 | only the named contact field changes; summary and the four lists are unchanged |
| ResumeForm.ContactChangeOverwrites | components/ResumeForm.tsx:52-57 | writing a field's current value is a no-op, and of two writes to one field the later wins |
| ResumeForm.SummaryChange | components/ResumeForm.tsx:60-62 | the summary becomes the value and nothing else in the document changes |
| ResumeForm.SummaryChangeOverwrites | components/ResumeForm.tsx:60-62 | of two summary changes the later wins, and writing the current summary gives back the document |
| ResumeForm.UpdateWhere | components/ResumeForm.tsx:70-72 | same length; every item whose id matches is changed, every other item is kept at its position |
| ResumeForm.SetExperienceField | components/ResumeForm.tsx:71 | the id is kept; `description` stores `split('\n')` of the value, any other field the raw value; the other fields are unchanged |
| ResumeForm.SetEducationField | components/ResumeForm.tsx:71 | the id is kept, the named field takes the value and the other fields are unchanged |
| ResumeForm.SetSkillField | components/ResumeForm.tsx:71 | the id is kept, the named field takes the value and the other is unchanged |
| ResumeForm.ExperienceChange | components/ResumeForm.tsx:64-75 | only the experience list changes; its length and order are kept and exactly the entries with the id get the field set |
| ResumeForm.EducationChange | components/ResumeForm.tsx:64-75 | the same for the education list |
| ResumeForm.SkillChange | components/ResumeForm.tsx:64-75 | the same for the skills list |
| ResumeForm.ChangeWithoutMatchIsNoop | components/ResumeForm.tsx:70-72 | when no item carries the id, a dynamic change leaves the document equal to the old one |
| ResumeForm.UpdateWithoutMatch | components/ResumeForm.tsx:70-72 | mapping with an id that no item carries returns the list unchanged |
| ResumeForm.DescriptionShowsWhatWasTyped | components/ResumeForm.tsx:71 | joining the stored description with line breaks gives back exactly the typed text |
| ResumeForm.DescriptionRoundTrip | components/ResumeForm.tsx:136 | re-submitting the displayed description of an entry whose id no other entry carries, with at least one bullet and no line break in any bullet, leaves the document unchanged |
| ResumeForm.EmptyDescriptionBecomesOneBullet | components/ResumeForm.tsx:136 | an entry with no bullets comes back from the textarea with one empty bullet |
| ResumeForm.NewExperience | components/ResumeForm.tsx:144 | the new entry's id is "exp" followed by the clock reading, every text field is empty and the description is empty |
| ResumeForm.NewEducation | components/ResumeForm.tsx:168 | the id is "edu" followed by the clock reading and every text field is empty |
| ResumeForm.NewSkill | components/ResumeForm.tsx:187 | the id is "skill" followed by the clock reading and both fields are empty |
| ResumeForm.AddExperience | components/ResumeForm.tsx:77-84 | only the experience list changes; it grows by one, the earlier entries are kept in place and the new entry is last |
| ResumeForm.AddEducation | components/ResumeForm.tsx:77-84 | the same for the education list |
| ResumeForm.AddSkill | components/ResumeForm.tsx:77-84 | the same for the skills list |
| ResumeForm.RemoveItem | components/ResumeForm.tsx:86-91 | only the named list changes and becomes that list filtered to the items whose id differs; the id is gone, the list does not grow, and every other id is still there |
| ResumeForm.RemoveAt | components/ResumeForm.tsx:89 | with distinct ids, removing the id of the item at position `k` gives the list with exactly that item taken out, the others in order |
| ResumeForm.FilterDropsOne | components/ResumeForm.tsx:89 | filtering out one element leaves the filtered parts before and after it |
| ResumeForm.RemoveKeepsIds | components/ResumeForm.tsx:89 | after the filter no item carries the id and every other id survives |
| ResumeForm.RemoveAbsentIsNoop | components/ResumeForm.tsx:89 | removing an id no item carries returns the list unchanged |
| ResumeForm.RemovePresentDropsOne | components/ResumeForm.tsx:89 | with distinct ids, removing a present id drops exactly one item |
| ResumeForm.AppendThenRemove | components/ResumeForm.tsx:82-89 | appending an item with a fresh id and then removing that id gives back the list |
| ResumeForm.AddThenRemove | components/ResumeForm.tsx:77-91 | on the document: "Add" at a fresh clock reading followed by "Remove" of the new id gives back the document, for each of the three lists |
| ResumeForm.ApplyEdit | components/ResumeForm.tsx:52-91 | a form edit never changes the projects (the form has no projects editor); only a contact edit changes the contact and only a summary edit the summary |
| ResumeForm.EditKeepsDistinctIds | components/ResumeForm.tsx:52-91 | every form handler keeps the ids of each list pairwise distinct, given that "Add" mints an id not yet in its list |
| ResumeForm.RemoveKeepsDistinctIds | components/ResumeForm.tsx:86-91 | removal keeps the ids of each list pairwise distinct |
| ResumeForm.FilterKeepsDistinct | components/ResumeForm.tsx:89 | filtering a list with distinct ids keeps them distinct |
| ResumeForm.AppendKeepsDistinct | components/ResumeForm.tsx:82 | appending an item with a fresh id keeps the ids distinct |
| ResumeForm.UpdateKeepsIds | components/ResumeForm.tsx:70-72 | a change that keeps each item's id keeps the list's ids unchanged |
| GeminiService.ItemId | services/geminiService.ts:110-113 | the id starts with the prefix, ends with the decimal index, and its length is the three parts' lengths added |
| GeminiService.Rekey | services/geminiService.ts:110-113 | a missing list becomes empty; otherwise same length, and item `i` is the reply's item `i` with the id minted from prefix, clock reading and index |
| GeminiService.NormalizeReply | services/geminiService.ts:108-114 | contact and summary pass through; each present list keeps its items and order with only the ids replaced; a missing list becomes empty |
| GeminiService.ItemIdDeterminesIndex | services/geminiService.ts:110-113 | two ids minted with one prefix and clock readings of equal width are equal only for equal indices |
| GeminiService.RekeyedIdsDistinct | services/geminiService.ts:110-113 | the ids of one re-keyed list are pairwise distinct when every clock reading has the same width |
| GeminiService.ImportedIdsDistinct | services/geminiService.ts:108-114 | every list of the imported document has pairwise distinct ids under that clock assumption |
| GeminiService.UnrelatedPrefixesSeparate | services/geminiService.ts:110-113 | strings that start with prefixes neither of which extends the other are different |
| GeminiService.PrefixesKeepListsApart | services/geminiService.ts:110-113 | an id minted for one list never equals an id minted for another, whatever the clock readings and indices |
| GeminiService.SummaryContextReadsOnlyThreeLists | services/geminiService.ts:121-133 | the summary request does not depend on the contact, the current summary or the projects |
| GeminiService.ExperienceLine | services/geminiService.ts:126 | the line holds no line break exactly when no field of the entry and no bullet does |
| GeminiService.EducationLine | services/geminiService.ts:129 | the line holds no line break exactly when neither degree nor institution does |
| GeminiService.SkillLine | services/geminiService.ts:132 | the line holds no line break exactly when neither category nor items does |
| GeminiService.Block | services/geminiService.ts:125-132 | a titled block contains each of its lines |
| GeminiService.SummaryContext | services/geminiService.ts:121-133 | the request text contains the line of every experience, education and skill entry |
| GeminiService.ExperienceBlockOneLinePerEntry | services/geminiService.ts:125-126 | the request holds the joined experience lines whole, and they split back into exactly one line per entry, in list order |
| GeminiService.BlockHoldsItsLines | services/geminiService.ts:122-133 | a request holding a titled block holds that block's joined lines whole |
| ModernTemplate.ProjectLink | components/templates/ModernTemplate.tsx:46-47 | no link exactly for an empty link; the text is the link; the href is the link itself when it starts with "http" and "https://" followed by the link otherwise |
| ModernTemplate.SummarySection | components/templates/ModernTemplate.tsx:15 | the "Professional Summary" section holds the summary paragraph, even when the summary is empty |
| ModernTemplate.ExperienceSection | components/templates/ModernTemplate.tsx:17-37 | one job per entry in list order, with title, dates, company, location and every bullet |
| ModernTemplate.ProjectsSection | components/templates/ModernTemplate.tsx:39-57 | the section exists exactly when there is a project; then it holds one entry per project with its name, link and description |
| ModernTemplate.EducationSection | components/templates/ModernTemplate.tsx:60-70 | one school per entry in list order, with institution, degree and dates |
| ModernTemplate.SkillsSection | components/templates/ModernTemplate.tsx:72-81 | one group per skill entry in list order, the items string shown as typed |
| ModernTemplate.SectionComponent | components/templates/ModernTemplate.tsx:84-90 | summary and experience map to their sections, projects to the projects section (nothing when there are no projects), education and skills to nothing; a rendered section carries its own key |
| ModernTemplate.Rendered | components/templates/ModernTemplate.tsx:121-123 | every rendered section comes from a key of the order and is that key's component |
| ModernTemplate.ShownInMainMeansRendered | components/templates/ModernTemplate.tsx:84-93 | a key reaches the main column exactly when it is not a sidebar key and its component renders something |
| ModernTemplate.ContactItems | components/templates/ModernTemplate.tsx:106-111 | every contact line shows a non-empty field other than the name under its label, with `mailto:` or `https://` links as the field requires |
| ModernTemplate.ContactItemsShowFilledFields | components/templates/ModernTemplate.tsx:106-111 | the lines show exactly the non-empty fields among those asked for, in order |
| ModernTemplate.ContactLines | components/templates/ModernTemplate.tsx:104-113 | the contact list shows exactly the non-empty fields in the order location, phone, email, LinkedIn, GitHub, website, each under its label with its link |
| ModernTemplate.RenderedOutsideSidebar | components/templates/ModernTemplate.tsx:84-93 | every rendered section is its key's own component and none has a sidebar key |
| ModernTemplate.Render | components/templates/ModernTemplate.tsx:96-126 | the name heads the page, the contact list is the filled-fields list of `ContactLines`, the sidebar is the Education section then the Skills section whatever the order, and every main-column section is its key's own component and never a sidebar key |
| ModernTemplate.RenderedKeys | components/templates/ModernTemplate.tsx:121-123 | the rendered keys are the order's keys whose component renders something, in order |
| ModernTemplate.MainContentOrderCounts | components/templates/ModernTemplate.tsx:93 | each key occurs in the main content order as often as in the section order, except education and skills, which never occur |
| ModernTemplate.MainFollowsOrder | components/templates/ModernTemplate.tsx:93 | the main column's keys are the order filtered to the keys shown in the main column |
| ModernTemplate.MainSectionPresence | components/templates/ModernTemplate.tsx:39-41 | summary and experience are in the main column exactly when the order names them; projects exactly when it names them and there is a project; education and skills never |
| ModernTemplate.ShownKeys | components/templates/ModernTemplate.tsx:84-93 | the order filtered to the main-column keys holds summary and experience exactly when the order does, projects when also there is a project, education and skills never |
| ModernTemplate.MainKeepsRelativeOrder | components/templates/ModernTemplate.tsx:93 | two main-column sections appear in the relative order the section order gives them |
| ModernTemplate.KeysOnPageOnce | components/templates/ModernTemplate.tsx:93-116 | with a permutation of the keys, the sidebar's two keys followed by the main-column keys name every key once, projects not at all when there are none |
| ModernTemplate.EverySectionOnce | components/templates/ModernTemplate.tsx:84-123 | with a permutation of the keys every section appears exactly once across sidebar and main column, except projects, which is absent when there are none |
| ModernTemplate.OrderOnlyMovesMainSections | components/templates/ModernTemplate.tsx:99-123 | two orders with the same keys give the same name, contact list and sidebar, and the same main-column sections |
| ClassicTemplate.Header | components/templates/ClassicTemplate.tsx:12-22 | nine header items with bars at the odd positions: location, phone with `tel:`, email with `mailto:`, "LinkedIn" and "GitHub" with `https://`, shown whether empty or not |
| ClassicTemplate.Roles | components/templates/ClassicTemplate.tsx:32-48 | one role per experience entry in list order, with company, dates, title, location and every bullet |
| ClassicTemplate.Studies | components/templates/ClassicTemplate.tsx:53-64 | one study per education entry in list order, with institution, dates, degree and location |
| ClassicTemplate.SkillRows | components/templates/ClassicTemplate.tsx:70-75 | one row per skill entry in list order; the caption is the category followed by a colon, the items string is shown as typed |
| ClassicTemplate.Render | components/templates/ClassicTemplate.tsx:5-80 | the name, the header, and exactly four sections SUMMARY, EXPERIENCE, EDUCATION, SKILLS in that order, whatever the lists hold |
| ClassicTemplate.ProjectsAndWebsiteNotShown | components/templates/ClassicTemplate.tsx:6 | changing the projects or the website changes nothing on the page |
| App.Classify | App.tsx:46-61 | a file is read as DOCX exactly when its type is the DOCX type or its lower-cased name ends in ".docx"; only `application/pdf` and `text/plain` go to the AI |
| App.ClassifyOutcomes | App.tsx:49-61 | the four branches in order: DOCX by type or by name; otherwise PDF or text by type; otherwise the Word type or a ".doc" name is refused with the ".doc" message; anything else is refused as unsupported, naming the type or "unknown" |
| App.ClassifyIgnoresCase | App.tsx:47 | the case of the file name never matters |
| App.TypelessFileRefused | App.tsx:53-60 | a file without a type and without a ".docx" or ".doc" name is refused as "unknown", even when named like a PDF |
| App.UploadResult | App.tsx:44-61 | a DOCX file yields the extractor's outcome; a PDF or text file succeeds exactly when the AI does, with the normalised reply, or fails with what the AI threw; a refused file fails with an Error carrying its message |
| App.UploadConsultsOneReader | App.tsx:49-61 | the DOCX extractor matters only for a DOCX file, and the AI only for a PDF or text file |
| App.ErrorMessage | App.tsx:66 | an Error shows its own message; any other thrown value shows the fixed parse-failure text |
| App.PdfUploadHasDistinctIds | App.tsx:53-55 | a successful PDF or text import yields distinct ids in every list under the clock assumption |
| App.DownloadFileName | App.tsx:133 | the file name ends in "_Resume.pdf" and has no whitespace, and is the name followed by "_Resume.pdf" when the name has no whitespace |
| App.FirstLastFileName | App.tsx:133 | a first and last name separated by any run of whitespace give "First_Last_Resume.pdf" |
| App.DownloadFileNameAtSpaceRun | App.tsx:133 | a whitespace run between a part that does not end in whitespace and one that does not start with it becomes one underscore between the two parts' own file names |
| App.InitialSectionOrder | App.tsx:27 | the starting section order is a permutation of the five keys |
| App.App.ModernPreviewShowsEverySection | App.tsx:202-206 | the preview (`App.App.Preview`, the selected template's renderer applied to the document and the section order) with the Modern template selected shows every section exactly once (projects only when there is one), its main column in the controller's section order |
| App.App.constructor | App.tsx:25-31 | the starting document, template 0, the fixed section order, all flags down and no error |
| App.App.SelectTemplate | App.tsx:34-36 | only the selected template changes |
| App.App.EditForm | components/ResumeForm.tsx:52-91 | the document becomes the form edit applied to it, distinct ids survive a fresh edit, and nothing else changes |
| App.App.HandleFileUpload | App.tsx:38-74 | no file changes nothing; otherwise success replaces the whole document and clears the error, failure keeps the document and shows the thrown message, and the parsing flag ends down; the section order never changes |
| App.App.Settle | App.tsx:63-69 | success replaces the document, failure shows the thrown message and keeps the document, the parsing flag ends down, and nothing else changes |
| App.App.HandleGenerateSummary | App.tsx:80-92 | the request is built from the document; success replaces only the summary, failure shows the fixed message and keeps the document; the loading flag ends down |
| App.App.HandleDownloadPdf | App.tsx:94-144 | no element or a running download changes nothing; otherwise the element is captured unscaled and without shadow, its styles are restored, the file is saved under the download name unless the capture throws, and the flag ends down |

## Left out

- The AI client calls, the prompt texts and schemas, `response.text.trim()` and `JSON.parse` are foreign calls. Their result is a parameter: a `ParsedResume` with optional lists, or a thrown value.
- The `generateSummary` reply is passed through untouched (`response.text`, no trim), so it is a plain parameter of `App.App.HandleGenerateSummary`.
- `services/geminiService.ts` defines no `parseResumeFromText`, although `App.tsx:7` imports it and `App.tsx:52` calls it. As written, the DOCX branch therefore cannot succeed: the build fails to link, or the call throws a TypeError whose message becomes the banner. The model gives the DOCX branch the outcome of mammoth followed by an intended text parser as one parameter, so a DOCX success in the model is the intended behaviour, not the written one.
- FileReader and base64 encoding, `file.arrayBuffer`, mammoth, html2canvas, jsPDF and the page-size arithmetic are browser I/O, foreign libraries and floating point. The capture-and-save step is one parameter that succeeds or throws.
- The 100 ms `setTimeout` pause and the interleaving of the async handlers are not modelled. Each handler runs as one sequential transition.
- `console.error` calls, the reset of the file input's value, and `handleTriggerUpload` have no effect on the state that is modelled.
- `components/ResumePreview.tsx:10-11` passes no section order to the template, so as written the Modern preview throws on its first render. The model passes the order, as `App.tsx:202-206` intends.
- `components/TemplateSelector.tsx`, the form's `Section`/`Input`/`Textarea` wrappers, CSS classes and icons are presentation only.
- No code in `App.tsx` or `components/ResumeForm.tsx` reorders sections or items, so there is no move operation.
- Fields missing from items in the AI reply, and a reply without contact or summary, are not modelled. `ParsedResume` always carries them.
- The `...parsedJson` spread can carry extra keys into the document. The model keeps only the typed fields.
- Classify: lower-cases the name with the ASCII letters A-Z only. JavaScript's `toLowerCase` also maps other letters, some of them to two characters. This matters only for names whose ".docx" or ".doc" ending is spelled with such letters.
- GeminiService.ImportedIdsDistinct: assumes every clock reading of a list has the same number of digits. Millisecond clock readings between 2001 and 2286 always have 13 digits.
- ResumeForm.EditKeepsDistinctIds: assumes "Add" never mints an id already in its list, i.e. two adds never fall in the same millisecond.
- Templates are compared by their closed `Modern | Classic` variant rather than by a component reference.
